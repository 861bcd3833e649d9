/**
 The model cascade of LLMBridge.generate: primary model, same-tier alternates, the FAST tier, then
 other providers.  The nested loops are proved to be "first success over one flat list".
 */
module Fallback {
  import opened Wrappers

  type Tier = string
  const FAST: Tier := "fast"
  const FAST_PROMPT_CHARS := 2000
  const CONNECTIVITY_MESSAGE :=
    "I'm currently experiencing connectivity issues with my language models. "
    + "Your message has been received and I'll respond as soon as service is restored."

  datatype Decision = Decision(tier: Tier, model: string)

  /** A prompt as adapted for one model. */
  datatype Prompt = Adapted(system: string, user: string, model: string, tier: Tier)

  datatype Stage = Primary | Alternate | Downgrade | Cascade

  /** One call: of a model through its tier, or of a provider by name. */
  datatype Attempt = Attempt(stage: Stage, target: string, tier: Tier, prompt: Prompt)

  datatype Outcome = Text(text: string) | Raised(message: string)

  datatype Reason = Used(stage: Stage) | Failed(stage: Stage, message: string) | Exhausted

  datatype FallbackEvent = FallbackEvent(
    primaryModel: string, primaryBackend: string,
    fallbackModel: string, fallbackBackend: string,
    reason: Reason, success: bool)

  datatype Served = Served(backend: string, tier: Tier)

  datatype Key = Key(promptHash: string, model: string)

  /** What is fixed while one request is answered. */
  datatype Setup = Setup(
    tierModels: map<Tier, seq<string>>,
    chain: seq<string>,
    available: map<string, bool>,
    backendOf: (string, Tier) -> string,
    hash: (string, string) -> string)

  function Models(c: Setup, tier: Tier): seq<string> {
    if tier in c.tierModels then c.tierModels[tier] else []
  }

  function ShortSystem(d: Decision, system: string): string {
    if d.tier == FAST && |system| > FAST_PROMPT_CHARS then system[..FAST_PROMPT_CHARS] + "..." else system
  }

  // ---------- The flat list ----------

  function PrimaryAttempt(d: Decision, system: string, user: string): Attempt {
    Attempt(Primary, d.model, d.tier, Adapted(ShortSystem(d, system), user, d.model, d.tier))
  }

  function ModelAttempts(stage: Stage, models: seq<string>, tier: Tier, system: string, user: string): (r: seq<Attempt>)
    ensures |r| == |models|
    ensures forall i :: 0 <= i < |r| ==> r[i] == Attempt(stage, models[i], tier, Adapted(system, user, models[i], tier))
  {
    seq(|models|, i requires 0 <= i < |models| =>
      Attempt(stage, models[i], tier, Adapted(system, user, models[i], tier)))
  }

  /** The providers tried last, each with the prompt adapted for the primary model. */
  function ProviderAttempts(c: Setup, k: nat, prompt: Prompt): seq<Attempt>
    requires k <= |c.chain|
    decreases |c.chain| - k
  {
    if k == |c.chain| then []
    else if Available(c, c.chain[k])
    then [Attempt(Cascade, c.chain[k], FAST, prompt)] + ProviderAttempts(c, k + 1, prompt)
    else ProviderAttempts(c, k + 1, prompt)
  }

  predicate Available(c: Setup, backend: string) {
    backend in c.available && c.available[backend]
  }

  function Alternates(c: Setup, d: Decision, system: string, user: string): seq<Attempt> {
    var models := Models(c, d.tier);
    ModelAttempts(Alternate, if models == [] then [] else models[1..], d.tier, ShortSystem(d, system), user)
  }

  function Downgrades(c: Setup, d: Decision, system: string, user: string): seq<Attempt> {
    if d.tier == FAST then [] else ModelAttempts(Downgrade, Models(c, FAST), FAST, ShortSystem(d, system), user)
  }

  /** Every attempt there may be, in order. */
  function Plan(c: Setup, d: Decision, system: string, user: string): (plan: seq<Attempt>)
    ensures plan != [] && plan[0] == PrimaryAttempt(d, system, user)
  {
    var first := PrimaryAttempt(d, system, user);
    [first] + (Alternates(c, d, system, user)
               + (Downgrades(c, d, system, user) + ProviderAttempts(c, 0, first.prompt)))
  }

  // ---------- First success ----------

  /** The world's answer to the n-th attempt of a request. */
  type World = (nat, Attempt) -> Outcome

  /** The first attempt from `i` on that succeeds, or |plan|. */
  function FirstSuccess(w: World, plan: seq<Attempt>, i: nat): (n: nat)
    requires i <= |plan|
    ensures i <= n <= |plan|
    ensures forall j :: i <= j < n ==> w(j, plan[j]).Raised?
    ensures n < |plan| ==> w(n, plan[n]).Text?
    decreases |plan| - i
  {
    if i == |plan| || w(i, plan[i]).Text? then i else FirstSuccess(w, plan, i + 1)
  }

  function BackendOf(c: Setup, a: Attempt): string {
    if a.stage == Cascade then a.target else c.backendOf(a.target, a.tier)
  }

  function EventOf(c: Setup, d: Decision, a: Attempt, o: Outcome): FallbackEvent {
    FallbackEvent(d.model, c.backendOf(d.model, d.tier), a.target, BackendOf(c, a),
                  if o.Text? then Used(a.stage) else Failed(a.stage, o.message), o.Text?)
  }

  function LastResort(c: Setup, d: Decision): FallbackEvent {
    FallbackEvent(d.model, c.backendOf(d.model, d.tier), "none", "none", Exhausted, false)
  }

  /** One event for each of the attempts [1, n). */
  function Events(c: Setup, d: Decision, w: World, plan: seq<Attempt>, n: nat): (es: seq<FallbackEvent>)
    requires n <= |plan|
    ensures |es| == if n == 0 then 0 else n - 1
    ensures forall j :: 1 <= j < n ==> es[j - 1] == EventOf(c, d, plan[j], w(j, plan[j]))
  {
    if n <= 1 then [] else Events(c, d, w, plan, n - 1) + [EventOf(c, d, plan[n - 1], w(n - 1, plan[n - 1]))]
  }

  /** The answer, who served it, and what the tracker recorded. */
  datatype Reply = Reply(text: string, served: Served, events: seq<FallbackEvent>, index: nat)

  function Answer(c: Setup, d: Decision, w: World, plan: seq<Attempt>): Reply
    requires plan != []
  {
    AnswerOf(c, d, w, plan, FirstSuccess(w, plan, 0))
  }

  /** The answer when attempt `n` is the first to succeed, or none does and n == |plan|. */
  function AnswerOf(c: Setup, d: Decision, w: World, plan: seq<Attempt>, n: nat): Reply
    requires n <= |plan| && (n < |plan| ==> w(n, plan[n]).Text?)
  {
    if n < |plan|
    then Reply(w(n, plan[n]).text, Served(BackendOf(c, plan[n]), plan[n].tier), Events(c, d, w, plan, n + 1), n)
    else Reply(CONNECTIVITY_MESSAGE, Served("none", "none"),
               Events(c, d, w, plan, n) + [LastResort(c, d)], n)
  }

  // ---------- The code ----------

  class LLMBridge {
    const setup: Setup
    const hasCache: bool
    var cache: map<Key, string>
    var tracker: seq<FallbackEvent>
    ghost var primaryTexts: set<(Key, string)>  // every text a primary model returned, by cache key

    /** The cache holds nothing but texts of primary models. */
    ghost predicate Valid()
      reads this
    {
      forall k :: k in cache ==> (k, cache[k]) in primaryTexts
    }

    constructor (setup: Setup, hasCache: bool)
      ensures Valid() && this.setup == setup && this.hasCache == hasCache && tracker == []
    {
      this.setup, this.hasCache := setup, hasCache;
      cache, tracker, primaryTexts := map[], [], {};
    }

    /** One attempt after the primary: call, record, report. */
    method TryOne(d: Decision, w: World, n: nat, a: Attempt, ghost plan: seq<Attempt>, ghost base: seq<FallbackEvent>)
      returns (reply: Option<(string, Served)>)
      requires 1 <= n < |plan| && a == plan[n]
      requires tracker == base + Events(setup, d, w, plan, n)
      modifies this`tracker
      ensures tracker == base + Events(setup, d, w, plan, n + 1)
      ensures reply == Result(w, plan, n)
    {
      var outcome := w(n, a);
      tracker := tracker + [EventOf(setup, d, a, outcome)];
      reply := if outcome.Text? then Some((outcome.text, Served(BackendOf(setup, a), a.tier))) else None;
    }

    /** What attempt `n` yields to the caller. */
    function Result(w: World, plan: seq<Attempt>, n: nat): Option<(string, Served)>
      requires n < |plan|
    {
      var o := w(n, plan[n]);
      if o.Text? then Some((o.text, Served(BackendOf(setup, plan[n]), plan[n].tier))) else None
    }

    /** Try attempts [i, i + |group|) of the plan until one succeeds. */
    method TryGroup(d: Decision, w: World, group: seq<Attempt>, i: nat, ghost plan: seq<Attempt>,
                    ghost base: seq<FallbackEvent>)
      returns (reply: Option<(string, Served)>, next: nat)
      requires 1 <= i && Follows(plan, i, group) && AllRaised(w, plan, i)
      requires tracker == base + Events(setup, d, w, plan, i)
      modifies this`tracker
      ensures next <= i + |group| && AllRaised(w, plan, next)
      ensures reply.None? ==> next == i + |group| && tracker == base + Events(setup, d, w, plan, next)
      ensures reply.Some? ==> next < i + |group| && reply == Result(w, plan, next)
                              && tracker == base + Events(setup, d, w, plan, next + 1)
    {
      next, reply := i, None;
      hide Events, EventOf;
      while next < i + |group|
        invariant i <= next <= i + |group| && AllRaised(w, plan, next)
        invariant tracker == base + Events(setup, d, w, plan, next)
      {
        reply := TryOne(d, w, next, group[next - i], plan, base);
        if reply.Some? {
          return;
        }
        next := next + 1;
      }
      reply := None;
    }

    /** The available providers of the chain, each tried with the primary's prompt. */
    method TryChain(d: Decision, w: World, prompt: Prompt, i: nat, ghost plan: seq<Attempt>,
                    ghost base: seq<FallbackEvent>)
      returns (reply: Option<(string, Served)>, ghost next: nat)
      requires 1 <= i && Follows(plan, i, ProviderAttempts(setup, 0, prompt))
      requires |plan| == i + |ProviderAttempts(setup, 0, prompt)|
      requires AllRaised(w, plan, i)
      requires tracker == base + Events(setup, d, w, plan, i)
      modifies this`tracker
      ensures next <= |plan| && AllRaised(w, plan, next)
      ensures reply.None? ==> next == |plan| && tracker == base + Events(setup, d, w, plan, next)
      ensures reply.Some? ==> next < |plan| && reply == Result(w, plan, next)
                              && tracker == base + Events(setup, d, w, plan, next + 1)
    {
      hide ProviderAttempts, Events, Follows, Available, BackendOf;
      NoProviders(setup, prompt);
      var n, k := i, 0;
      while k < |setup.chain|
        invariant 0 <= k <= |setup.chain| && i <= n <= |plan| && AllRaised(w, plan, n)
        invariant Follows(plan, n, ProviderAttempts(setup, k, prompt))
        invariant |plan| == n + |ProviderAttempts(setup, k, prompt)|
        invariant tracker == base + Events(setup, d, w, plan, n)
      {
        var backend := setup.chain[k];
        ProviderStep(setup, k, prompt, plan, n);
        if Available(setup, backend) {
          reply := TryOne(d, w, n, Attempt(Cascade, backend, FAST, prompt), plan, base);
          if reply.Some? {
            return reply, n;
          }
          n := n + 1;
        }
        k := k + 1;
      }
      return None, n;
    }

    /** Answer from the cache when allowed and possible (`live`: an entry has not expired), else by the plan. */
    method Generate(d: Decision, system: string, user: string, skipCache: bool, live: bool, w: World)
      returns (text: string, served: Served, hit: bool)
      requires Valid()
      modifies this
      ensures Valid()
      ensures var key := Key(setup.hash(system, user), d.model);
              && (hit <==> hasCache && !skipCache && key in old(cache) && live)
              && (hit ==> text == old(cache)[key] && served == Served("cache", d.tier)
                          && cache == old(cache) && tracker == old(tracker) && primaryTexts == old(primaryTexts))
      ensures var key, r := Key(setup.hash(system, user), d.model), Answer(setup, d, w, Plan(setup, d, system, user));
              !hit ==> && text == r.text && served == r.served && tracker == old(tracker) + r.events
                       && cache == (if r.index == 0 && hasCache && !skipCache then old(cache)[key := text]
                                    else old(cache))
                       && primaryTexts == old(primaryTexts) + if r.index == 0 then {(key, text)} else {}
    {
      var key := Key(setup.hash(system, user), d.model);
      if hasCache && !skipCache && key in cache && live {
        return cache[key], Served("cache", d.tier), true;
      }
      text, served := RunPlan(d, system, user, hasCache && !skipCache, key, w);
      hit := false;
    }

    /** The primary model; its text, and no other, is cached. */
    method RunPlan(d: Decision, system: string, user: string, store: bool, key: Key, w: World)
      returns (text: string, served: Served)
      requires Valid()
      modifies this
      ensures Valid()
      ensures var r := Answer(setup, d, w, Plan(setup, d, system, user));
              && text == r.text && served == r.served && tracker == old(tracker) + r.events
              && cache == (if r.index == 0 && store then old(cache)[key := text] else old(cache))
              && primaryTexts == old(primaryTexts) + if r.index == 0 then {(key, text)} else {}
    {
      ghost var plan := Plan(setup, d, system, user);
      PlanParts(setup, d, system, user);
      var prompt := Adapted(ShortSystem(d, system), user, d.model, d.tier);
      var first := w(0, Attempt(Primary, d.model, d.tier, prompt));
      if first.Text? {
        FirstIs(w, plan, 0);
        primaryTexts := primaryTexts + {(key, first.text)};
        if store {
          cache := cache[key := first.text];
        }
        return first.text, Served(setup.backendOf(d.model, d.tier), d.tier);
      }
      text, served := Fall(d, w, Alternates(setup, d, system, user), Downgrades(setup, d, system, user), prompt, plan);
    }

    /** The primary failed: the other models of its tier, then those of the FAST tier. */
    method FallToModels(d: Decision, w: World, alternates: seq<Attempt>, downgrades: seq<Attempt>,
                        ghost plan: seq<Attempt>)
      returns (reply: Option<(string, Served)>, n: nat)
      requires AllRaised(w, plan, 1)
      requires Follows(plan, 1, alternates) && Follows(plan, 1 + |alternates|, downgrades)
      modifies this`tracker
      ensures n <= |plan| && AllRaised(w, plan, n)
      ensures reply.None? ==> n == 1 + |alternates| + |downgrades|
      ensures reply.None? ==> tracker == old(tracker) + Events(setup, d, w, plan, n)
      ensures reply.Some? ==> n < |plan| && reply == Result(w, plan, n)
                              && tracker == old(tracker) + Events(setup, d, w, plan, n + 1)
    {
      ghost var base := tracker;
      assert Events(setup, d, w, plan, 1) == [];
      reply, n := TryGroup(d, w, alternates, 1, plan, base);
      if reply.None? {
        reply, n := TryGroup(d, w, downgrades, n, plan, base);
      }
    }

    /** ... then the provider chain, and at last a fixed message. */
    method Fall(d: Decision, w: World, alternates: seq<Attempt>, downgrades: seq<Attempt>, prompt: Prompt,
                ghost plan: seq<Attempt>)
      returns (text: string, served: Served)
      requires 1 <= |plan| && AllRaised(w, plan, 1)
      requires Follows(plan, 1, alternates) && Follows(plan, 1 + |alternates|, downgrades)
      requires Follows(plan, 1 + |alternates| + |downgrades|, ProviderAttempts(setup, 0, prompt))
      requires |plan| == 1 + |alternates| + |downgrades| + |ProviderAttempts(setup, 0, prompt)|
      modifies this`tracker
      ensures var r := Answer(setup, d, w, plan);
              text == r.text && served == r.served && tracker == old(tracker) + r.events && r.index > 0
    {
      hide FirstSuccess, Follows, ProviderAttempts, Events, LastResort, BackendOf;
      ghost var base := tracker;
      var reply, n := FallToModels(d, w, alternates, downgrades, plan);
      ghost var m := n;
      if reply.None? {
        reply, m := TryChain(d, w, prompt, n, plan, base);
      }
      FirstIs(w, plan, m);
      if reply.Some? {
        return reply.value.0, reply.value.1;
      }
      tracker := tracker + [LastResort(setup, d)];
      return CONNECTIVITY_MESSAGE, Served("none", "none");
    }
  }

  ghost predicate AllRaised(w: World, plan: seq<Attempt>, n: nat) {
    n <= |plan| && forall j :: 0 <= j < n ==> w(j, plan[j]).Raised?
  }

  /** `group` is the part of the plan that starts at `i`. */
  ghost predicate Follows(plan: seq<Attempt>, i: nat, group: seq<Attempt>) {
    i + |group| <= |plan| && forall j :: i <= j < i + |group| ==> plan[j] == group[j - i]
  }

  lemma PlanParts(c: Setup, d: Decision, system: string, user: string)
    ensures var plan, prompt := Plan(c, d, system, user), PrimaryAttempt(d, system, user).prompt;
            var a, b := Alternates(c, d, system, user), Downgrades(c, d, system, user);
            var p := ProviderAttempts(c, 0, prompt);
            && Follows(plan, 1, a) && Follows(plan, 1 + |a|, b) && Follows(plan, 1 + |a| + |b|, p)
            && |plan| == 1 + |a| + |b| + |p|
  {
    PlanIs(c, d, system, user);
    hide *;
    ThreeParts(PrimaryAttempt(d, system, user), Alternates(c, d, system, user), Downgrades(c, d, system, user),
               ProviderAttempts(c, 0, PrimaryAttempt(d, system, user).prompt));
  }

  lemma PlanIs(c: Setup, d: Decision, system: string, user: string)
    ensures var first := PrimaryAttempt(d, system, user);
            Plan(c, d, system, user)
            == [first] + (Alternates(c, d, system, user)
                          + (Downgrades(c, d, system, user) + ProviderAttempts(c, 0, first.prompt)))
  {
    hide PrimaryAttempt, Alternates, Downgrades, ProviderAttempts;
  }

  lemma ThreeParts(first: Attempt, a: seq<Attempt>, b: seq<Attempt>, p: seq<Attempt>)
    ensures var plan := [first] + (a + (b + p));
            && Follows(plan, 1, a) && Follows(plan, 1 + |a|, b) && Follows(plan, 1 + |a| + |b|, p)
            && |plan| == 1 + |a| + |b| + |p|
  {
  }

  lemma NoProviders(c: Setup, prompt: Prompt)
    ensures ProviderAttempts(c, |c.chain|, prompt) == []
  {
  }

  lemma ProviderStep(c: Setup, k: nat, prompt: Prompt, plan: seq<Attempt>, n: nat)
    requires k < |c.chain| && Follows(plan, n, ProviderAttempts(c, k, prompt))
    ensures var here, rest := ProviderAttempts(c, k, prompt), ProviderAttempts(c, k + 1, prompt);
            if Available(c, c.chain[k])
            then |here| == 1 + |rest| && plan[n] == Attempt(Cascade, c.chain[k], FAST, prompt)
                 && Follows(plan, n + 1, rest)
            else here == rest
  {
  }

  lemma FirstIs(w: World, plan: seq<Attempt>, n: nat)
    requires AllRaised(w, plan, n) && (n < |plan| ==> w(n, plan[n]).Text?)
    ensures FirstSuccess(w, plan, 0) == n
  {
  }

  // ---------- Who is asked, and who answers ----------

  ghost predicate Rising(idx: seq<nat>) {
    forall j, k :: 0 <= j < k < |idx| ==> idx[j] < idx[k]
  }

  /** From `k` on, the places in the chain of the providers marked available. */
  lemma {:induction false} ProviderPlaces(c: Setup, k: nat, prompt: Prompt) returns (idx: seq<nat>)
    requires k <= |c.chain|
    ensures Rising(idx) && |idx| == |ProviderAttempts(c, k, prompt)|
    ensures forall i :: i in idx <==> k <= i < |c.chain| && c.chain[i] in c.available && c.available[c.chain[i]]
    ensures forall j :: 0 <= j < |idx| ==>
              k <= idx[j] < |c.chain|
              && ProviderAttempts(c, k, prompt)[j] == Attempt(Cascade, c.chain[idx[j]], "fast", prompt)
    decreases |c.chain| - k
  {
    if k == |c.chain| {
      return [];
    }
    var rest := ProviderPlaces(c, k + 1, prompt);
    if c.chain[k] in c.available && c.available[c.chain[k]] {
      idx := [k] + rest;
      assert forall i :: i in idx <==> i == k || i in rest;
      ProvidersCons(c, k, prompt);
      hide ProviderAttempts;
      forall j | 0 <= j < |idx| ensures k <= idx[j] < |c.chain|
        && ProviderAttempts(c, k, prompt)[j] == Attempt(Cascade, c.chain[idx[j]], "fast", prompt)
      {
        if j > 0 { assert idx[j] == rest[j - 1]; }
      }
    } else {
      idx := rest;
    }
  }

  lemma ProvidersCons(c: Setup, k: nat, prompt: Prompt)
    requires k < |c.chain| && c.chain[k] in c.available && c.available[c.chain[k]]
    ensures ProviderAttempts(c, k, prompt)
            == [Attempt(Cascade, c.chain[k], "fast", prompt)] + ProviderAttempts(c, k + 1, prompt)
  {
  }

  /**
   The whole plan: the chosen model; the tier's other models; unless the tier is FAST, every FAST model; and the
   available providers in chain order, with the primary's prompt.  A FAST request cuts the system text at 2000.
   */
  lemma WhoIsAsked(c: Setup, d: Decision, system: string, user: string) returns (idx: seq<nat>)
    ensures Rising(idx)
            && forall i :: i in idx <==> 0 <= i < |c.chain| && c.chain[i] in c.available && c.available[c.chain[i]]
    ensures var plan := Plan(c, d, system, user);
            var own := if d.tier in c.tierModels then c.tierModels[d.tier] else [];
            var fast := if "fast" in c.tierModels && d.tier != "fast" then c.tierModels["fast"] else [];
            var sys := if d.tier == "fast" && |system| > 2000 then system[..2000] + "..." else system;
            var prompt := Adapted(sys, user, d.model, d.tier);
            var m := if own == [] then 1 else |own|;
            && |plan| == m + |fast| + |idx|
            && plan[0] == Attempt(Primary, d.model, d.tier, prompt)
            && (forall i :: 1 <= i < m ==>
                  plan[i] == Attempt(Alternate, own[i], d.tier, Adapted(sys, user, own[i], d.tier)))
            && (forall i :: m <= i < m + |fast| ==>
                  plan[i] == Attempt(Downgrade, fast[i - m], "fast", Adapted(sys, user, fast[i - m], "fast")))
            && (forall i :: m + |fast| <= i < |plan| ==>
                  0 <= idx[i - m - |fast|] < |c.chain|
                  && plan[i] == Attempt(Cascade, c.chain[idx[i - m - |fast|]], "fast", prompt))
  {
    PlanParts(c, d, system, user);
    ModelsAsked(c, d, system, user);
    hide Plan, Alternates, Downgrades, ProviderAttempts, ModelAttempts;
    idx := ProviderPlaces(c, 0, PrimaryAttempt(d, system, user).prompt);
  }

  lemma ModelsAsked(c: Setup, d: Decision, system: string, user: string)
    ensures var own := if d.tier in c.tierModels then c.tierModels[d.tier] else [];
            var fast := if "fast" in c.tierModels && d.tier != "fast" then c.tierModels["fast"] else [];
            var sys := if d.tier == "fast" && |system| > 2000 then system[..2000] + "..." else system;
            var a, b := Alternates(c, d, system, user), Downgrades(c, d, system, user);
            && |a| == (if own == [] then 0 else |own| - 1) && |b| == |fast|
            && (forall i :: 0 <= i < |a| ==>
                  a[i] == Attempt(Alternate, own[i + 1], d.tier, Adapted(sys, user, own[i + 1], d.tier)))
            && (forall i :: 0 <= i < |b| ==>
                  b[i] == Attempt(Downgrade, fast[i], "fast", Adapted(sys, user, fast[i], "fast")))
  {
  }

  /**
   The answer is that of the first of the plan that answers, under its backend and tier; the fixed message comes
   exactly when all of them raise.
   */
  lemma WhoAnswers(c: Setup, d: Decision, w: World, plan: seq<Attempt>)
    requires plan != []
    ensures var r := Answer(c, d, w, plan);
            && r.index <= |plan| && (forall i :: 0 <= i < r.index ==> w(i, plan[i]).Raised?)
            && (r.index < |plan| ==>
                  && w(r.index, plan[r.index]) == Text(r.text)
                  && r.served.tier == plan[r.index].tier
                  && r.served.backend == if plan[r.index].stage == Cascade then plan[r.index].target
                                         else c.backendOf(plan[r.index].target, plan[r.index].tier))
            && (r.index == |plan| ==>
                  r.served == Served("none", "none") && r.text == CONNECTIVITY_MESSAGE)
  {
  }

  // ---------- What the tracker records ----------

  /**
   Nothing is recorded when the primary answers.  Otherwise there is one event per later attempt made,
   plus a final one when all failed; a success is recorded at most once, last, and exactly when some
   other model answered.
   */
  lemma TrackerShape(c: Setup, d: Decision, w: World, plan: seq<Attempt>)
    requires plan != []
    ensures var r, backend := Answer(c, d, w, plan), c.backendOf(d.model, d.tier);
            && |r.events| == r.index
            && (forall j :: 0 <= j < |r.events| && r.events[j].success ==> j == |r.events| - 1)
            && ((exists j :: 0 <= j < |r.events| && r.events[j].success) <==> 0 < r.index < |plan|)
            && (r.index == |plan| ==>
                  r.events[|plan| - 1] == FallbackEvent(d.model, backend, "none", "none", Exhausted, false))
            && (forall j :: 1 <= j < |plan| && j <= r.index ==>
                  var a, o := plan[j], w(j, plan[j]);
                  r.events[j - 1] == FallbackEvent(
                    d.model, backend, a.target, if a.stage == Cascade then a.target else c.backendOf(a.target, a.tier),
                    if o.Text? then Used(a.stage) else Failed(a.stage, o.message), o.Text?))
  {
    var r, n := Answer(c, d, w, plan), FirstSuccess(w, plan, 0);
    if 0 < n < |plan| {
      assert r.events[n - 1] == EventOf(c, d, plan[n], w(n, plan[n]));
      assert r.events[n - 1].success;
    }
    forall j | 0 <= j < |r.events| && r.events[j].success ensures j == |r.events| - 1 && n < |plan| {
      if j + 1 < |plan| && j + 1 <= n {
        assert r.events[j] == EventOf(c, d, plan[j + 1], w(j + 1, plan[j + 1]));
      }
    }
  }
}
