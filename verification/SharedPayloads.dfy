/** A client that repeats the controller's head and attributes shares the controller's dummy payload. */
module SharedPayloads {
  import opened Types
  import opened PayloadIds
  import opened PayloadBuilding
  import opened Protocol
  import opened Retention
  import PayloadVerdicts
  import Lru

  /** No identifier is written over the one a resident key has. */
  lemma {:induction false} KeepsIssued(cfg: Config, m: Machine, step: Step, key: Key, id: PayloadId)
    requires Enabled(m, step) && Lru.Peek(m.shared.builder.attributes, key) == Some(id)
    ensures Lru.Preserves(StepOps(cfg, m, step).attributes, key, id)
  {
  }

  lemma {:induction false} AttributesStepHeld(cfg: Config, m: Machine, step: Step, key: Key, id: PayloadId,
      others: set<Key>)
    requires CachesOk(m.shared) && Enabled(m, step) && Lru.Held(m.shared.builder.attributes, key, id, others)
    requires |others + Lru.Others(StepOps(cfg, m, step).attributes, key)| < m.shared.builder.attributes.capacity
    ensures Lru.Held(Apply(cfg, m, step).shared.builder.attributes, key, id,
            others + Lru.Others(StepOps(cfg, m, step).attributes, key))
  {
    StepPerformsOps(cfg, m, step);
    KeepsIssued(cfg, m, step, key, id);
    Lru.WorkingSet(m.shared.builder.attributes, key, id, others, StepOps(cfg, m, step).attributes);
  }

  /** A resident key keeps its identifier. */
  lemma {:induction false} AttributesHeld(cfg: Config, m: Machine, steps: seq<Step>, key: Key, id: PayloadId,
      others: set<Key>)
    requires CachesOk(m.shared) && Run(cfg, m, steps).Some? && Lru.Held(m.shared.builder.attributes, key, id, others)
    requires |others + Lru.Others(OpsOf(cfg, m, steps).attributes, key)| < m.shared.builder.attributes.capacity
    ensures Lru.Held(Run(cfg, m, steps).value.shared.builder.attributes, key, id,
                     others + Lru.Others(OpsOf(cfg, m, steps).attributes, key))
    decreases |steps|
  {
    if steps != [] {
      var init, last := steps[..|steps| - 1], steps[|steps| - 1];
      var n := Run(cfg, m, init).value;
      var soFar, now := OpsOf(cfg, m, init).attributes, StepOps(cfg, n, last).attributes;
      var before, all := others + Lru.Others(soFar, key), others + Lru.Others(OpsOf(cfg, m, steps).attributes, key);
      OthersConcat(soFar, now, key);
      assert before + Lru.Others(now, key) == all;
      Lru.SubsetSize(before, all);
      AttributesHeld(cfg, m, init, key, id, others);
      RunKeepsCaches(cfg, m, init);
      AttributesStepHeld(cfg, n, last, key, id, before);
    }
  }

  lemma {:induction false} NewIdIsNotStored(cfg: Config, b: Builder, builds: seq<Build>, seen: set<ExecutionPayload>,
      id: PayloadId)
    requires Consistent(cfg, b, builds, seen) && |builds| < U64_LIMIT && Lru.Contains(b.payloads, id)
    ensures id != ToBeBytes(b.nextPayloadId)
  {
    ResidentIdsBelowNext(cfg, b, builds, seen);
    RoundTrip(b.nextPayloadId);
  }

  /** Nothing is written under an identifier that is not the next one. */
  lemma {:induction false} OnlyNextIdIsWritten(cfg: Config, m: Machine, step: Step, id: PayloadId,
      payload: ExecutionPayload)
    requires Enabled(m, step) && id != ToBeBytes(m.shared.builder.nextPayloadId)
    ensures Lru.Preserves(StepOps(cfg, m, step).payloads, id, payload)
  {
    if step.Proceed? && m.tasks[step.tid].pc.Attributes? {
      var job := m.tasks[step.tid].job;
      var key := (job.fcu.head, job.attributes.value);
      if Register(cfg, m.shared.builder, key).build.Some? {
        BuildCorresponds(cfg, m.shared.builder, key);
      }
    }
  }

  lemma {:induction false} PayloadsStepHeld(cfg: Settings, m: Machine, step: Step, id: PayloadId,
      payload: ExecutionPayload, others: set<PayloadId>)
    requires Reachable(cfg, m) && Enabled(m, step) && |m.builds| < U64_LIMIT
    requires Lru.Held(m.shared.builder.payloads, id, payload, others)
    requires |others + Lru.Others(StepOps(cfg, m, step).payloads, id)| < m.shared.builder.payloads.capacity
    ensures Lru.Held(Apply(cfg, m, step).shared.builder.payloads, id, payload,
            others + Lru.Others(StepOps(cfg, m, step).payloads, id))
  {
    ReachableCachesOk(cfg, m);
    PayloadVerdicts.BuilderAlwaysConsistent(cfg, m);
    NewIdIsNotStored(cfg, m.shared.builder, m.builds, PayloadVerdicts.Seen(m.history), id);
    OnlyNextIdIsWritten(cfg, m, step, id, payload);
    StepPerformsOps(cfg, m, step);
    Lru.WorkingSet(m.shared.builder.payloads, id, payload, others, StepOps(cfg, m, step).payloads);
  }

  lemma {:induction false} BuildsOnlyGrow(cfg: Config, m: Machine, step: Step)
    requires Enabled(m, step)
    ensures |m.builds| <= |Apply(cfg, m, step).builds|
  {
  }

  /** A stored payload stays under its identifier as long as identifiers do not repeat. */
  lemma {:induction false} PayloadsHeld(cfg: Settings, m: Machine, steps: seq<Step>, id: PayloadId,
      payload: ExecutionPayload, others: set<PayloadId>)
    requires Reachable(cfg, m) && Run(cfg, m, steps).Some? && |Run(cfg, m, steps).value.builds| < U64_LIMIT
    requires Lru.Held(m.shared.builder.payloads, id, payload, others)
    requires |others + Lru.Others(OpsOf(cfg, m, steps).payloads, id)| < cfg.payloadBuilderCacheSize
    ensures Lru.Held(Run(cfg, m, steps).value.shared.builder.payloads, id, payload,
                     others + Lru.Others(OpsOf(cfg, m, steps).payloads, id))
    decreases |steps|
  {
    if steps != [] {
      var init, last := steps[..|steps| - 1], steps[|steps| - 1];
      var n := Run(cfg, m, init).value;
      var soFar, now := OpsOf(cfg, m, init).payloads, StepOps(cfg, n, last).payloads;
      var before, all := others + Lru.Others(soFar, id), others + Lru.Others(OpsOf(cfg, m, steps).payloads, id);
      OthersConcat(soFar, now, id);
      assert before + Lru.Others(now, id) == all;
      Lru.SubsetSize(before, all);
      BuildsOnlyGrow(cfg, n, last);
      PayloadsHeld(cfg, m, init, id, payload, others);
      ReachableExtends(cfg, m, init, n);
      ReachableCachesOk(cfg, n);
      PayloadsStepHeld(cfg, n, last, id, payload, before);
    }
  }

  predicate RegistersAttributes(task: Task, key: Key) {
    && task.job.ControllerFcu? && task.pc.Attributes? && task.inside
    && (task.job.fcu.head, task.job.attributes.value) == key
  }

  predicate LooksUpAttributes(task: Task, key: Key) {
    && task.job.ClientFcu? && task.pc.Attributes? && task.inside
    && (task.job.fcu.head, task.job.attributes.value) == key
  }

  lemma {:induction false} RegisteringLeavesFront(cfg: Settings, b: Builder, key: Key, id: PayloadId)
    requires CachesWellFormed(b) && Register(cfg, b, key).answer == Registered(id)
    ensures var r := Register(cfg, b, key);
            && Lru.Held(r.builder.attributes, key, id, {})
            && (r.build.Some? ==> r.build.value.id == id && Lru.Held(r.builder.payloads, id, r.build.value.payload, {}))
  {
    var r := Register(cfg, b, key);
    if r.build.Some? {
      Lru.PutFacts(b.attributes, key, id);
      Lru.PutFacts(b.payloads, id, r.build.value.payload);
    }
  }

  /**
   * The controller is given an identifier for a head and attributes; a client that asks with the
   * same head and attributes is given the same one, until as many other keys have been touched as
   * the builder remembers.
   */
  lemma {:induction false} ClientSharesId(cfg: Settings, m: Machine, controller: nat, key: Key, id: PayloadId,
      m1: Machine, steps: seq<Step>, n: Machine, client: nat)
    requires Reachable(cfg, m) && controller in m.tasks && RegistersAttributes(m.tasks[controller], key)
    requires m1 == Apply(cfg, m, Proceed(controller))
    requires m1.tasks[controller].pc == Finished(FcuDone(m.tasks[controller].pc.status, Given(id)))
    requires Run(cfg, m1, steps) == Some(n)
    requires |Lru.Others(OpsOf(cfg, m1, steps).attributes, key)| < cfg.payloadBuilderCacheSize
    requires client in n.tasks && LooksUpAttributes(n.tasks[client], key)
    ensures Apply(cfg, n, Proceed(client)).tasks[client].pc == Finished(FcuDone(n.tasks[client].pc.status, Given(id)))
  {
    ReachableCachesOk(cfg, m);
    RegisteringLeavesFront(cfg, m.shared.builder, key, id);
    ReachableStep(cfg, m, Proceed(controller));
    ReachableCachesOk(cfg, m1);
    assert {} + Lru.Others(OpsOf(cfg, m1, steps).attributes, key) == Lru.Others(OpsOf(cfg, m1, steps).attributes, key);
    AttributesHeld(cfg, m1, steps, key, id, {});
  }

  /**
   * If the controller's request built the payload, anyone who fetches that identifier is given that
   * payload, which answers the attributes, until as many other payloads have been touched.
   */
  lemma {:induction false} BuiltPayloadIsServed(cfg: Settings, m: Machine, controller: nat, key: Key, build: Build,
      m1: Machine, steps: seq<Step>, n: Machine, fetcher: nat)
    requires Reachable(cfg, m) && controller in m.tasks && RegistersAttributes(m.tasks[controller], key)
    requires m1 == Apply(cfg, m, Proceed(controller)) && m1.builds == m.builds + [build]
    requires Run(cfg, m1, steps) == Some(n) && |n.builds| < U64_LIMIT
    requires |Lru.Others(OpsOf(cfg, m1, steps).payloads, build.id)| < cfg.payloadBuilderCacheSize
    requires fetcher in n.tasks && n.tasks[fetcher].job == FetchPayload(build.id)
    requires n.tasks[fetcher].pc.FetchFromBuilder? && n.tasks[fetcher].inside
    ensures Apply(cfg, n, Proceed(fetcher)).tasks[fetcher].pc == Finished(Fetched(build.payload))
    ensures build.key == key && Corresponds(cfg, build)
            && Vouched(key.0, build.parentInfo, PayloadVerdicts.Seen(m.history))
  {
    JustBuilt(cfg, m, controller, key, build, m1);
    ReachableStep(cfg, m, Proceed(controller));
    KeptFromFront(cfg, m1, steps, build.id, build.payload);
    ResidentIsServed(cfg, n, fetcher, build.id, build.payload);
  }

  lemma {:induction false} KeptFromFront(cfg: Settings, m: Machine, steps: seq<Step>, id: PayloadId,
      payload: ExecutionPayload)
    requires Reachable(cfg, m) && Run(cfg, m, steps).Some? && |Run(cfg, m, steps).value.builds| < U64_LIMIT
    requires Lru.Held(m.shared.builder.payloads, id, payload, {})
    requires |Lru.Others(OpsOf(cfg, m, steps).payloads, id)| < cfg.payloadBuilderCacheSize
    ensures Lru.Peek(Run(cfg, m, steps).value.shared.builder.payloads, id) == Some(payload)
  {
    assert {} + Lru.Others(OpsOf(cfg, m, steps).payloads, id) == Lru.Others(OpsOf(cfg, m, steps).payloads, id);
    PayloadsHeld(cfg, m, steps, id, payload, {});
  }

  lemma {:induction false} ResidentIsServed(cfg: Config, n: Machine, fetcher: nat, id: PayloadId,
      payload: ExecutionPayload)
    requires fetcher in n.tasks && n.tasks[fetcher].job == FetchPayload(id)
    requires n.tasks[fetcher].pc.FetchFromBuilder? && n.tasks[fetcher].inside
    requires Lru.Peek(n.shared.builder.payloads, id) == Some(payload)
    ensures Apply(cfg, n, Proceed(fetcher)).tasks[fetcher].pc == Finished(Fetched(payload))
  {
  }

  lemma {:induction false} JustBuilt(cfg: Settings, m: Machine, controller: nat, key: Key, build: Build, m1: Machine)
    requires Reachable(cfg, m) && controller in m.tasks && RegistersAttributes(m.tasks[controller], key)
    requires m1 == Apply(cfg, m, Proceed(controller)) && m1.builds == m.builds + [build]
    ensures Lru.Held(m1.shared.builder.payloads, build.id, build.payload, {})
    ensures build.key == key && Corresponds(cfg, build)
            && Vouched(key.0, build.parentInfo, PayloadVerdicts.Seen(m.history))
  {
    var r := Register(cfg, m.shared.builder, key);
    assert m1.builds == Extended(m.builds, r.build) && m1.shared.builder == r.builder;
    assert r.build == Some(build) by {
      assert |m1.builds| == |m.builds| + 1;
      assert m1.builds[|m.builds|] == r.build.value;
    }
    ReachableCachesOk(cfg, m);
    PayloadVerdicts.BuilderAlwaysConsistent(cfg, m);
    BuildCorresponds(cfg, m.shared.builder, key);
    RegisteringLeavesFront(cfg, m.shared.builder, key, build.id);
  }

  /** At any time, whatever payload is resident under the identifier a client is given answers its own attributes. */
  lemma {:induction false} GivenPayloadCorresponds(cfg: Settings, n: Machine, client: nat, key: Key)
    returns (build: Build)
    requires Reachable(cfg, n) && |n.builds| <= U64_LIMIT
    requires client in n.tasks && LooksUpAttributes(n.tasks[client], key)
    requires var pc := Apply(cfg, n, Proceed(client)).tasks[client].pc;
             pc.outcome.payloadId.Given? && Lru.Contains(n.shared.builder.payloads, pc.outcome.payloadId.id)
    ensures build in n.builds && build.key == key && Corresponds(cfg, build)
    ensures Vouched(key.0, build.parentInfo, PayloadVerdicts.Seen(n.history))
    ensures Lru.Peek(n.shared.builder.payloads, Apply(cfg, n, Proceed(client)).tasks[client].pc.outcome.payloadId.id)
            == Some(build.payload)
  {
    PayloadVerdicts.BuilderAlwaysConsistent(cfg, n);
    build := StoredPayloadCorresponds(cfg, n.shared.builder, n.builds, PayloadVerdicts.Seen(n.history), key);
  }
}
