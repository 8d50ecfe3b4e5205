/**
 Creating agents through a platform that may lose any reply, and keeping the name of each request
 bound to the one agent made for it, over any number of runs cut short at any step.
*/
module Provisioning {
  import opened Faults

  type AgentId = string

  class Clock {
    var now: nat

    // `now()`: whole milliseconds, never going back.
    method Now() returns (t: nat)
      modifies this
      ensures t == now >= old(now)
    {
      var later: int := *;
      if later > now { now := later; }
      t := now;
    }

    // `wait()`: at least as long as asked.
    method Wait(ms: int)
      modifies this
      ensures now >= old(now) && now >= old(now) + ms
    {
      if ms > 0 { now := now + ms; }
      var t := Now();
    }
  }

  // ---- The platform ----

  datatype Target = Creation(key: string) | Poll(agent: AgentId)

  datatype Body = Agent(id: AgentId) | State(agent: AgentId, ready: bool, hopeless: bool) | Other

  // What a caller sees of one request. The request may have taken effect whatever it sees.
  datatype Reply =
    | Lost(transient: bool)
    | GatewayTimeout
    | Unreadable
    | Unavailable
    | Answer(status: nat, body: Body)

  predicate Created(r: Reply) {
    r.Answer? && r.status in {200, 201} && r.body.Agent?
  }

  predicate ReportsReady(r: Reply, agent: AgentId) {
    r.Answer? && r.status == 200 && r.body.State? && r.body.agent == agent && r.body.ready
  }

  class Platform {
    // The agent made for each idempotency key.
    var agents: map<string, AgentId>
    // The agents it has reported ready.
    ghost var reported: set<AgentId>
    // The requests that reached it.
    ghost var creations: nat
    ghost var polls: nat

    constructor ()
      ensures agents == map[] && reported == {} && creations == polls == 0
    {
      agents, reported, creations, polls := map[], {}, 0, 0;
    }

    method Handle(t: Target) returns (r: Reply)
      modifies this
      ensures agents == old(agents) ||
              (t.Creation? && t.key !in old(agents) && t.key in agents && agents[t.key] !in old(agents).Values &&
               agents == old(agents)[t.key := agents[t.key]])
      ensures t.Creation? && Created(r) ==> t.key in agents && agents[t.key] == r.body.id
      ensures reported == if t.Poll? && ReportsReady(r, t.agent) then old(reported) + {t.agent} else old(reported)
      ensures creations == old(creations) + (if t.Creation? then 1 else 0)
      ensures polls == old(polls) + (if t.Poll? then 1 else 0)
    {
      if t.Creation? { creations := creations + 1; } else { polls := polls + 1; }
      r := *;
      var commits := *;
      if t.Creation? && t.key !in agents && commits {
        var id: AgentId := *;
        if id !in agents.Values { agents := agents[t.key := id]; }
      }
      if t.Creation? && Created(r) {
        if t.key in agents { r := r.(body := Agent(agents[t.key])); } else { r := Lost(true); }
      }
      if t.Poll? && ReportsReady(r, t.agent) { reported := reported + {t.agent}; }
    }
  }

  // ---- One request, retried ----

  class Evidence {
    var attempts: nat
    var lostReplies: nat
    var unavailableReplies: nat
    var gatewayTimeouts: nat
    var budgetExhausted: bool

    constructor ()
      ensures attempts == 0 && !budgetExhausted
    {
      attempts, lostReplies, unavailableReplies, gatewayTimeouts, budgetExhausted := 0, 0, 0, 0, false;
    }
  }

  // `n` attempts, a second apart, were begun between `start` and `deadline`.
  ghost predicate Spaced(n: int, start: int, deadline: int) {
    n <= 0 || 1000 * (n - 1) < deadline - start
  }

  // As many attempts as the seconds begun.
  lemma SpacedMeansBounded(n: int, start: int, deadline: int, budget: nat)
    requires Spaced(n, start, deadline) && deadline - start <= budget
    ensures n <= (budget + 999) / 1000
  {
  }

  // The requests that reached the platform are of this kind and no more than this.
  predicate Reached(target: Target, creations: int, polls: int, limit: int) {
    if target.Creation? then 0 <= creations <= limit && polls == 0 else creations == 0 && 0 <= polls <= limit
  }

  function Min(a: int, b: int): int {
    if a < b then a else b
  }

  function Max(a: int, b: int): int {
    if a < b then b else a
  }

  // The platform made at most one agent, and only for the key asked for.
  ghost predicate Grown(before: map<string, AgentId>, after: map<string, AgentId>, target: Target) {
    before == after || (target.Creation? && target.key !in before && target.key in after &&
      after[target.key] !in before.Values && after == before[target.key := after[target.key]])
  }

  datatype Verdict = Again | HandOn(reply: Option<Reply>)

  // The request may or may not have taken effect, and may be repeated.
  predicate Transient(r: Reply) {
    r.GatewayTimeout? || r.Unavailable? || (r.Lost? && r.transient)
  }

  // One attempt of `requestJson` and what it makes of the reply.
  method Attempt(env: Environment, time: Clock, platform: Platform, target: Target, deadline: int,
                 evidence: Evidence, retry: bool)
    returns (o: Outcome, v: Verdict, seen: Reply)
    modifies env`faults, time, platform, evidence
    ensures time.now >= old(time.now) && evidence.attempts == old(evidence.attempts) + 1
    ensures v.Again? ==> retry && Transient(seen)
    ensures o.Done? && time.now < deadline && retry && Transient(seen) ==> v.Again?
    ensures o.Done? && time.now < deadline && seen.Answer? ==> v == HandOn(Some(seen))
    ensures v.HandOn? && v.reply.Some? ==> v.reply == Some(seen) && (seen.Answer? || seen.Unavailable?)
    ensures Grown(old(platform.agents), platform.agents, target)
    ensures v.HandOn? && v.reply.Some? && target.Creation? && Created(v.reply.value) ==>
              target.key in platform.agents && platform.agents[target.key] == v.reply.value.body.id
    ensures Reached(target, platform.creations - old(platform.creations), platform.polls - old(platform.polls), 1)
    ensures old(platform.reported) <= platform.reported
    ensures v.HandOn? && v.reply.Some? && target.Poll? && ReportsReady(v.reply.value, target.agent) ==>
      target.agent in platform.reported
    ensures !o.Failed? && env.faults >= old(env.faults) && (env.faults == old(env.faults) ==> o.Done?)
  {
    evidence.attempts, v, seen := evidence.attempts + 1, HandOn(None), Lost(true);
    var lands;
    o, lands := env.Decide();
    if lands { seen := platform.Handle(target); }
    if o.Crashed? { return; }
    if o.Failed? { o, seen := Done, Lost(true); }
    var t := time.Now();
    if seen.Unreadable? { return; }
    if deadline <= t && (seen.Answer? || seen.Unavailable?) {
      evidence.budgetExhausted := true;
      return;
    }
    match seen {
      case Answer(_, _) =>
        v := HandOn(Some(seen));
      case GatewayTimeout =>
        evidence.gatewayTimeouts := evidence.gatewayTimeouts + 1;
        v := if retry then Again else HandOn(None);
      case Unavailable =>
        evidence.unavailableReplies := evidence.unavailableReplies + 1;
        v := if retry then Again else HandOn(Some(seen));
      case Lost(transient) =>
        evidence.lostReplies := evidence.lostReplies + 1;
        v := if transient && retry then Again else HandOn(None);
    }
  }

  // `requestJson`: the reply to hand on, if there is one.
  method Request(env: Environment, time: Clock, platform: Platform, target: Target, deadline: int,
                 evidence: Evidence, retry: bool)
    returns (o: Outcome, reply: Option<Reply>)
    modifies env`faults, time, platform, evidence
    ensures !o.Failed? && time.now >= old(time.now) && env.faults >= old(env.faults)
    ensures Grown(old(platform.agents), platform.agents, target)
    ensures reply.Some? && target.Creation? && Created(reply.value) ==>
              target.key in platform.agents && platform.agents[target.key] == reply.value.body.id
    ensures old(platform.reported) <= platform.reported
    ensures reply.Some? && target.Poll? && ReportsReady(reply.value, target.agent) ==> target.agent in platform.reported
    ensures evidence.attempts >= old(evidence.attempts) && (!retry ==> evidence.attempts <= old(evidence.attempts) + 1)
    ensures Reached(target, platform.creations - old(platform.creations), platform.polls - old(platform.polls),
                    evidence.attempts - old(evidence.attempts))
    ensures evidence.attempts == old(evidence.attempts) ==> deadline <= time.now
    ensures evidence.attempts - old(evidence.attempts) <= (Max(0, deadline - old(time.now)) + 999) / 1000
    ensures Spaced(evidence.attempts - old(evidence.attempts), old(time.now), deadline)
    ensures 1000 * (evidence.attempts - old(evidence.attempts) - 1) <= time.now - old(time.now)
    ensures env.faults == old(env.faults) ==> o.Done?
  {
    reply := None;
    ghost var budget := Max(0, deadline - time.now);
    while true
      invariant time.now >= old(time.now) && env.faults >= old(env.faults)
      invariant Grown(old(platform.agents), platform.agents, target)
      invariant old(platform.reported) <= platform.reported
      invariant evidence.attempts >= old(evidence.attempts) && (!retry ==> evidence.attempts == old(evidence.attempts))
      invariant Reached(target, platform.creations - old(platform.creations), platform.polls - old(platform.polls),
                        evidence.attempts - old(evidence.attempts))
      invariant Spaced(evidence.attempts - old(evidence.attempts), old(time.now), deadline)
      invariant 1000 * (evidence.attempts - old(evidence.attempts) - 1) <= time.now - old(time.now)
      invariant time.now < deadline ==> 1000 * (evidence.attempts - old(evidence.attempts)) <= time.now - old(time.now)
      decreases deadline - time.now
    {
      var t := time.Now();
      if deadline <= t {
        evidence.budgetExhausted := true;
        SpacedMeansBounded(evidence.attempts - old(evidence.attempts), old(time.now), deadline, budget);
        return Done, None;
      }
      ghost var before := platform.agents;
      var v, seen;
      o, v, seen := Attempt(env, time, platform, target, deadline, evidence, retry);
      GrownTwice(old(platform.agents), before, platform.agents, target);
      SpacedMeansBounded(evidence.attempts - old(evidence.attempts), old(time.now), deadline, budget);
      if !o.Done? { return o, None; }
      if v.HandOn? { return Done, v.reply; }
      t := time.Now();
      time.Wait(Max(0, Min(1000, deadline - t)));
    }
  }

  lemma GrownTwice(a: map<string, AgentId>, b: map<string, AgentId>, c: map<string, AgentId>, target: Target)
    requires Grown(a, b, target) && Grown(b, c, target)
    ensures Grown(a, c, target)
  {
  }

  // `waitForReady`: polls until the agent is ready, is beyond hope, or time is up.
  method WaitForReady(env: Environment, time: Clock, platform: Platform, agent: AgentId, waitSeconds: nat,
                      evidence: Evidence)
    returns (o: Outcome, ready: bool)
    requires evidence.attempts == 0
    modifies env`faults, time, platform, evidence
    ensures platform.agents == old(platform.agents) && old(platform.reported) <= platform.reported
    ensures o.Done? && ready ==> agent in platform.reported
    ensures evidence.attempts <= if waitSeconds == 0 then 1 else waitSeconds
    ensures Reached(Poll(agent), platform.creations - old(platform.creations), platform.polls - old(platform.polls),
                    evidence.attempts)
    ensures waitSeconds == 0 && time.now < old(time.now) + 10_000 ==> evidence.attempts == 1
  {
    ready := false;
    var t := time.Now();
    var deadline := t + waitSeconds * 1000;
    ghost var start := time.now;
    while true
      invariant time.now >= start && platform.agents == old(platform.agents) &&
        old(platform.reported) <= platform.reported
      invariant Spaced(evidence.attempts, start, deadline)
      invariant 1000 * evidence.attempts <= time.now - start || deadline <= time.now
      invariant waitSeconds == 0 ==> evidence.attempts == 0
      invariant Reached(Poll(agent), platform.creations - old(platform.creations),
                        platform.polls - old(platform.polls), evidence.attempts)
      decreases deadline - time.now
    {
      t := time.Now();
      ghost var asked := evidence.attempts;
      var reply;
      var limit := if waitSeconds == 0 then t + 10_000 else deadline;
      o, reply := Request(env, time, platform, Poll(agent), limit, evidence, waitSeconds != 0);
      if !o.Done? || reply.None? || !reply.value.Answer? || reply.value.status != 200 { return o, false; }
      var body := reply.value.body;
      if !body.State? || body.agent != agent { return Failed, false; }
      if body.ready { return Done, true; }
      if body.hopeless { return Done, false; }
      t := time.Now();
      if deadline <= t {
        evidence.budgetExhausted := true;
        return Done, false;
      }
      t := time.Now();
      time.Wait(Min(1000, deadline - t));
    }
  }

  // ---- Bindings ----

  // One request of a plan. The plan is fixed: a state file made for another is refused.
  datatype Order = Order(name: string, key: string, journey: Option<string>)

  datatype Entry = Entry(agent: AgentId, ready: bool)
  type Bindings = map<string, Entry>

  const CREATION_BUDGET := 300_000

  // Each agent is bound to at most one name.
  ghost predicate Injective(b: Bindings) {
    forall m, n :: m in b && n in b && b[m].agent == b[n].agent ==> m == n
  }

  // A name in the plan is bound to the agent the platform made for its key.
  ghost predicate BoundByKey(orders: seq<Order>, agents: map<string, AgentId>, name: string, agent: AgentId) {
    exists i :: 0 <= i < |orders| && orders[i].name == name && orders[i].key in agents && agents[orders[i].key] == agent
  }

  ghost predicate Sound(orders: seq<Order>, agents: map<string, AgentId>, b: Bindings) {
    Injective(b) && forall n :: n in b ==> BoundByKey(orders, agents, n, b[n].agent)
  }

  // Only agents that the platform reported ready are marked so.
  ghost predicate Reported(reported: set<AgentId>, b: Bindings) {
    forall n :: n in b && b[n].ready ==> b[n].agent in reported
  }

  // What was bound stays bound to the same agent.
  ghost predicate Kept(before: Bindings, after: Bindings) {
    forall n :: n in before ==> n in after && after[n].agent == before[n].agent
  }

  // Agents appear only for keys of the plan, and those there are stay.
  ghost predicate OnlyOrdered(orders: seq<Order>, before: map<string, AgentId>, after: map<string, AgentId>) {
    && (forall k :: k in before ==> k in after && after[k] == before[k])
    && (forall k :: k in after && k !in before ==> exists i :: 0 <= i < |orders| && orders[i].key == k)
  }

  lemma SoundStays(orders: seq<Order>, before: map<string, AgentId>, after: map<string, AgentId>, b: Bindings)
    requires Sound(orders, before, b) && OnlyOrdered(orders, before, after)
    ensures Sound(orders, after, b)
  {
  }

  // The first `n` requests are bound to agents that are ready.
  ghost predicate Ready(orders: seq<Order>, n: nat, b: Bindings)
    requires n <= |orders|
  {
    forall i :: 0 <= i < n ==> orders[i].name in b && b[orders[i].name].ready
  }

  // Each browser input names the agent bound to the name it was made for.
  ghost predicate NamesItsAgent(orders: seq<Order>, b: Bindings, f: string, agent: AgentId) {
    exists i :: 0 <= i < |orders| && orders[i].journey == Some(f) && orders[i].name in b &&
      b[orders[i].name].agent == agent
  }

  ghost predicate Faithful(orders: seq<Order>, b: Bindings, browser: map<string, AgentId>) {
    forall f :: f in browser ==> NamesItsAgent(orders, b, f, browser[f])
  }

  lemma FaithfulStays(orders: seq<Order>, b: Bindings, b': Bindings, browser: map<string, AgentId>)
    requires Faithful(orders, b, browser) && Kept(b, b')
    ensures Faithful(orders, b', browser)
  {
  }

  lemma BindingKeepsSound(orders: seq<Order>, agents: map<string, AgentId>, b: Bindings, name: string, e: Entry)
    requires Sound(orders, agents, b) && BoundByKey(orders, agents, name, e.agent)
    requires name in b ==> b[name].agent == e.agent
    requires forall n :: n in b && n != name ==> b[n].agent != e.agent
    ensures Sound(orders, agents, b[name := e])
  {
  }

  // A binding was marked ready; the others are as before.
  ghost predicate Readied(before: Bindings, after: Bindings, name: string) {
    name in after && after == before[name := Entry(after[name].agent, true)] &&
      (name in before ==> after[name].agent == before[name].agent)
  }

  predicate DistinctNames(orders: seq<Order>) {
    forall i, j :: 0 <= i < j < |orders| ==> orders[i].name != orders[j].name
  }

  predicate Proper(orders: seq<Order>) {
    && DistinctNames(orders)
    && forall i, j :: 0 <= i < j < |orders| && orders[i].journey.Some? ==> orders[i].journey != orders[j].journey
  }

  lemma OneMoreReady(orders: seq<Order>, n: nat, before: Bindings, after: Bindings)
    requires n < |orders| && Ready(orders, n, before) && Readied(before, after, orders[n].name)
    ensures Ready(orders, n + 1, after)
  {
  }

  lemma KeptTwice(a: Bindings, b: Bindings, c: Bindings)
    requires Kept(a, b) && Kept(b, c)
    ensures Kept(a, c)
  {
  }

  lemma OrderedTwice(orders: seq<Order>, a: map<string, AgentId>, b: map<string, AgentId>, c: map<string, AgentId>)
    requires OnlyOrdered(orders, a, b) && OnlyOrdered(orders, b, c)
    ensures OnlyOrdered(orders, a, c)
  {
  }

  lemma GrownIsOrdered(orders: seq<Order>, before: map<string, AgentId>, after: map<string, AgentId>, order: Order)
    requires order in orders && Grown(before, after, Creation(order.key))
    ensures OnlyOrdered(orders, before, after)
  {
  }

  class StateDirectory {
    const env: Environment
    const time: Clock
    const platform: Platform
    const orders: seq<Order>
    var locked: bool
    // `agent-bindings.json`
    var file: Option<Bindings>
    // The browser inputs: the agent each one names.
    var browser: map<string, AgentId>

    constructor (env: Environment, time: Clock, platform: Platform, orders: seq<Order>)
      ensures this.env == env && this.time == time && this.platform == platform && this.orders == orders
      ensures file == None && browser == map[] && Inv()
    {
      this.env, this.time, this.platform, this.orders := env, time, platform, orders;
      locked, file, browser := false, None, map[];
    }

    function Bound(): Bindings
      reads this
    {
      if file.Some? then file.value else map[]
    }

    ghost predicate Inv()
      reads this, platform
    {
      Sound(orders, platform.agents, Bound()) && Reported(platform.reported, Bound()) &&
        Faithful(orders, Bound(), browser)
    }

    // `onBinding` with `atomicJson`.
    method OnBinding(agents: Bindings, name: string, agent: AgentId, ready: bool)
      returns (o: Outcome, agents': Bindings)
      requires Inv() && agents == Bound() && BoundByKey(orders, platform.agents, name, agent)
      requires ready ==> agent in platform.reported
      modifies this`file, env`faults
      ensures Inv() && Kept(agents, Bound())
      ensures o.Done? ==> agents' == Bound() == agents[name := Entry(agent, ready)]
    {
      agents' := agents;
      if name in agents && agents[name].agent != agent { return Failed, agents'; }
      if exists n | n in agents :: n != name && agents[n].agent == agent { return Failed, agents'; }
      agents' := agents[name := Entry(agent, ready)];
      BindingKeepsSound(orders, platform.agents, agents, name, Entry(agent, ready));
      FaithfulStays(orders, agents, agents', browser);
      var lands;
      o, lands := env.Decide();
      if lands { file := Some(agents'); }
    }

    // The creation request: at most 300 attempts.
    method Create(order: Order) returns (o: Outcome, agent: Option<AgentId>, attempts: nat)
      requires Inv() && order in orders
      modifies env`faults, time, platform
      ensures Inv() && OnlyOrdered(orders, old(platform.agents), platform.agents)
      ensures Grown(old(platform.agents), platform.agents, Creation(order.key)) && attempts <= 300
      ensures Reached(Creation(order.key), platform.creations - old(platform.creations),
                      platform.polls - old(platform.polls), attempts)
      ensures agent.Some? ==> BoundByKey(orders, platform.agents, order.name, agent.value)
    {
      agent := None;
      var t := time.Now();
      var creation := new Evidence();
      var reply;
      o, reply := Request(env, time, platform, Creation(order.key), t + CREATION_BUDGET, creation, true);
      attempts := creation.attempts;
      GrownIsOrdered(orders, old(platform.agents), platform.agents, order);
      SoundStays(orders, old(platform.agents), platform.agents, Bound());
      if o.Done? && reply.Some? && Created(reply.value) { agent := Some(reply.value.body.id); }
    }

    // The agent of a request: the one bound before, or a new one.
    method Obtain(order: Order, agents: Bindings) returns (o: Outcome, agent: Option<AgentId>)
      requires Inv() && agents == Bound() && order in orders
      modifies env`faults, time, platform
      ensures Inv() && OnlyOrdered(orders, old(platform.agents), platform.agents)
      ensures order.name in agents ==>
        platform.agents == old(platform.agents) && platform.creations == old(platform.creations)
      ensures agent.Some? ==> BoundByKey(orders, platform.agents, order.name, agent.value)
      ensures platform.polls == old(platform.polls)
    {
      if order.name in agents {
        return Done, Some(agents[order.name].agent);
      }
      var attempts;
      o, agent, attempts := Create(order);
    }

    // Wait for a bound agent and mark it ready.
    method Await(name: string, agent: AgentId, agents: Bindings, waitSeconds: nat)
      returns (o: Outcome, pass: bool, agents': Bindings)
      requires Inv() && agents == Bound() && BoundByKey(orders, platform.agents, name, agent)
      modifies this`file, env`faults, time, platform
      ensures Inv() && Kept(agents, Bound()) && platform.agents == old(platform.agents)
      ensures platform.creations == old(platform.creations)
      ensures o.Done? && pass ==> agents' == Bound() == agents[name := Entry(agent, true)]
    {
      pass, agents' := false, agents;
      var readiness := new Evidence();
      var ready;
      o, ready := WaitForReady(env, time, platform, agent, waitSeconds, readiness);
      if !o.Done? || !ready { return; }
      o, agents' := OnBinding(agents, name, agent, true);
      pass := o.Done?;
    }

    // One request: obtain the agent, bind it, wait for it, mark it ready.
    method Fulfil(order: Order, agents: Bindings, waitSeconds: nat) returns (o: Outcome, pass: bool, agents': Bindings)
      requires Inv() && agents == Bound() && order in orders
      modifies this`file, env`faults, time, platform
      ensures Inv() && Kept(agents, Bound()) && OnlyOrdered(orders, old(platform.agents), platform.agents)
      ensures order.name in agents ==>
        platform.agents == old(platform.agents) && platform.creations == old(platform.creations)
      ensures o.Done? && pass ==> agents' == Bound() && Readied(agents, agents', order.name)
      ensures platform.polls != old(platform.polls) ==> order.name in Bound()
    {
      pass, agents' := false, agents;
      var agent;
      o, agent := Obtain(order, agents);
      if !o.Done? || agent.None? { return; }
      o, agents' := OnBinding(agents, order.name, agent.value, false);
      if !o.Done? { return; }
      var bound := agents';
      o, pass, agents' := Await(order.name, agent.value, bound, waitSeconds);
      KeptTwice(agents, bound, Bound());
    }

    // `provisionAgents`: the requests one by one, until one does not pass.
    method ProvisionAgents(waitSeconds: nat) returns (o: Outcome, pass: bool, agents: Bindings)
      requires Inv() && DistinctNames(orders)
      modifies this`file, env`faults, time, platform
      ensures Inv() && Kept(old(Bound()), Bound()) && OnlyOrdered(orders, old(platform.agents), platform.agents)
      ensures o.Done? && pass ==> agents == Bound() && Ready(orders, |orders|, agents)
    {
      agents, pass, o := Bound(), true, Done;
      for i := 0 to |orders|
        invariant Inv() && agents == Bound() && Kept(old(Bound()), agents)
        invariant OnlyOrdered(orders, old(platform.agents), platform.agents)
        invariant o.Done? && pass && Ready(orders, i, agents)
      {
        ghost var made, before := platform.agents, agents;
        assert orders[i] in orders;
        o, pass, agents := Fulfil(orders[i], agents, waitSeconds);
        OrderedTwice(orders, old(platform.agents), made, platform.agents);
        KeptTwice(old(Bound()), before, Bound());
        if !o.Done? || !pass { return o, false, agents; }
        OneMoreReady(orders, i, before, agents);
      }
    }
  
    // The names and the browser inputs of the plan are distinct; every binding is for one of its names.
    method Check() returns (ok: bool)
      ensures ok ==> DistinctNames(orders)
      ensures ok <==> Proper(orders) && forall n :: n in Bound() ==>
        exists i :: 0 <= i < |orders| && orders[i].name == n
    {
      var seen: set<string>, filenames: set<string> := {}, {};
      for i := 0 to |orders|
        invariant forall n :: n in seen <==> exists j :: 0 <= j < i && orders[j].name == n
        invariant forall f :: f in filenames <==> exists j :: 0 <= j < i && orders[j].journey == Some(f)
        invariant Proper(orders[..i])
      {
        if orders[i].name in seen || (orders[i].journey.Some? && orders[i].journey.value in filenames) {
          assert !Proper(orders);
          return false;
        }
        seen := seen + {orders[i].name};
        if orders[i].journey.Some? { filenames := filenames + {orders[i].journey.value}; }
        assert Proper(orders[..i + 1]);
      }
      assert orders[..|orders|] == orders;
      ok := forall n :: n in Bound() ==> n in seen;
    }

    // The browser inputs, once every agent is ready.
    method Expose(agents: Bindings) returns (o: Outcome)
      requires Inv() && agents == Bound() && Ready(orders, |orders|, agents)
      modifies this`browser, env`faults
      ensures Inv()
      ensures forall f :: f in old(browser) ==> f in browser
      ensures o.Done? ==> forall i :: 0 <= i < |orders| && orders[i].journey.Some? ==>
        orders[i].journey.value in browser
    {
      for i := 0 to |orders|
        invariant Inv() && agents == Bound()
        invariant forall f :: f in old(browser) ==> f in browser
        invariant forall j :: 0 <= j < i && orders[j].journey.Some? ==> orders[j].journey.value in browser
      {
        if orders[i].journey.Some? {
          var f, agent := orders[i].journey.value, agents[orders[i].name].agent;
          assert NamesItsAgent(orders, agents, f, agent);
          var lands;
          o, lands := env.Decide();
          if lands { browser := browser[f := agent]; }
          if !o.Done? { return; }
        }
      }
      return Done;
    }

    // `provisionWithBindings` inside the lock; `materialize` takes the agents as they stand.
    method Work(waitSeconds: nat, materialize: bool) returns (o: Outcome, pass: bool)
      requires Inv()
      modifies this`file, this`browser, env`faults, time, platform
      ensures Inv() && Kept(old(Bound()), Bound()) && OnlyOrdered(orders, old(platform.agents), platform.agents)
      ensures materialize ==> file == old(file) && platform.agents == old(platform.agents)
      ensures browser != old(browser) || (o.Done? && pass) ==> Ready(orders, |orders|, Bound())
    {
      pass := false;
      var ok := Check();
      if !ok { return Failed, false; }
      var agents := Bound();
      if materialize {
        pass := forall i :: 0 <= i < |orders| ==> orders[i].name in agents && agents[orders[i].name].ready;
      } else {
        o, pass, agents := ProvisionAgents(waitSeconds);
        if !o.Done? { return o, false; }
      }
      if pass {
        o := Expose(agents);
        return o, pass;
      }
      o := Done;
    }

    // `provisionWithBindings`: only the holder of the lock works; a run that dies leaves it behind.
    method Run(waitSeconds: nat, materialize: bool) returns (o: Outcome, pass: bool)
      requires Inv()
      modifies this, env`faults, time, platform
      ensures Inv() && Kept(old(Bound()), Bound()) && OnlyOrdered(orders, old(platform.agents), platform.agents)
      ensures browser != old(browser) || (o.Done? && pass) ==> Ready(orders, |orders|, Bound())
      ensures old(locked) ==> locked && file == old(file) && browser == old(browser)
      ensures old(locked) ==> platform.agents == old(platform.agents)
    {
      pass := false;
      var lands;
      o, lands := env.Decide();
      if locked { return Failed, false; }
      if lands { locked := true; }
      if !o.Done? { return; }
      o, pass := Work(waitSeconds, materialize);
      if o.Crashed? { return; }
      var released;
      released, lands := env.Decide();
      if lands { locked := false; }
      if !released.Done? { o := released; }
    }
  }

  // Any number of runs, cut short at any step; a lock left behind may be taken away in between.
  method AnyHistory(d: StateDirectory)
    requires d.Inv()
    modifies d, d.env`faults, d.time, d.platform
    ensures d.Inv() && Kept(old(d.Bound()), d.Bound()) &&
      OnlyOrdered(d.orders, old(d.platform.agents), d.platform.agents)
  {
    var runs: nat := *;
    while runs > 0
      invariant d.Inv() && Kept(old(d.Bound()), d.Bound()) &&
        OnlyOrdered(d.orders, old(d.platform.agents), d.platform.agents)
    {
      ghost var bound, made := d.Bound(), d.platform.agents;
      var waitSeconds: nat, materialize := *, *;
      if * { d.locked := false; }
      var o, pass := d.Run(waitSeconds, materialize);
      KeptTwice(old(d.Bound()), bound, d.Bound());
      OrderedTwice(d.orders, old(d.platform.agents), made, d.platform.agents);
      runs := runs - 1;
    }
  }
}
