/** The optional step hooks of the motion sandbox (src/policy_engine.py): a
    do-nothing policy, a tracing policy that counts hook calls in the step
    context, a bundle that forwards to one policy, and the factory that picks
    a policy by name. */
module PolicyEngine {
  import opened Results
  import opened Text

  /** The step context, restricted to integer counters. */
  type Ctx = map<string, int>

  const HitsBefore: string := "policy_hits_before"
  const HitsAfter: string := "policy_hits_after"

  /** The value a key holds, with a missing key read as 0 (`ctx.get(key, 0)`). */
  function Count(ctx: Ctx, key: string): int {
    if key in ctx then ctx[key] else 0
  }

  /** `ctx[key] = ctx.get(key, 0) + 1`. */
  function Bump(ctx: Ctx, key: string): (r: Ctx)
    ensures r.Keys == ctx.Keys + {key}
    ensures r[key] == Count(ctx, key) + 1
    ensures forall k :: k in ctx && k != key ==> r[k] == ctx[k]
  {
    ctx[key := Count(ctx, key) + 1]
  }

  datatype Policy = NullPolicy | TracePolicy {

    /** The hook run before an agent's update: the tracing policy counts
        one before-call, the null policy does nothing, and no other counter
        moves. */
    function BeforeStep(ctx: Ctx): (r: Ctx)
      ensures NullPolicy? ==> r == ctx
      ensures TracePolicy? ==> r.Keys == ctx.Keys + {HitsBefore} && Count(r, HitsBefore) == Count(ctx, HitsBefore) + 1
      ensures forall k :: k in ctx && k != HitsBefore ==> k in r && r[k] == ctx[k]
    {
      match this
      case NullPolicy => ctx
      case TracePolicy => Bump(ctx, HitsBefore)
    }

    /** The hook run after an agent's update: the tracing policy counts one
        after-call, the null policy does nothing, and no other counter moves. */
    function AfterStep(ctx: Ctx): (r: Ctx)
      ensures NullPolicy? ==> r == ctx
      ensures TracePolicy? ==> r.Keys == ctx.Keys + {HitsAfter} && Count(r, HitsAfter) == Count(ctx, HitsAfter) + 1
      ensures forall k :: k in ctx && k != HitsAfter ==> k in r && r[k] == ctx[k]
    {
      match this
      case NullPolicy => ctx
      case TracePolicy => Bump(ctx, HitsAfter)
    }
  }

  /** The wrapper the main loop always calls. */
  datatype PolicyBundle = PolicyBundle(policy: Policy) {

    /** Each hook is forwarded exactly once to the wrapped policy: a traced
        bundle raises the before-counter by one, and the after-counter never
        moves before a step. */
    function BeforeStep(ctx: Ctx): (r: Ctx)
      ensures Count(r, HitsBefore) == Count(ctx, HitsBefore) + (if policy.TracePolicy? then 1 else 0)
      ensures Count(r, HitsAfter) == Count(ctx, HitsAfter)
      ensures r.Keys == ctx.Keys + (if policy.TracePolicy? then {HitsBefore} else {})
      ensures forall k :: k in ctx && k != HitsBefore ==> k in r && r[k] == ctx[k]
      ensures policy.NullPolicy? ==> r == ctx
    {
      policy.BeforeStep(ctx)
    }

    /** A traced bundle raises the after-counter by one, and the
        before-counter never moves after a step. */
    function AfterStep(ctx: Ctx): (r: Ctx)
      ensures Count(r, HitsAfter) == Count(ctx, HitsAfter) + (if policy.TracePolicy? then 1 else 0)
      ensures Count(r, HitsBefore) == Count(ctx, HitsBefore)
      ensures r.Keys == ctx.Keys + (if policy.TracePolicy? then {HitsAfter} else {})
      ensures forall k :: k in ctx && k != HitsAfter ==> k in r && r[k] == ctx[k]
      ensures policy.NullPolicy? ==> r == ctx
    {
      policy.AfterStep(ctx)
    }
  }

  datatype PolicyError = UnknownPolicy(name: string)

  /** The names that select the null policy, compared after lower-casing. */
  predicate IsNullName(lowered: string) {
    lowered == "none" || lowered == "null" || lowered == "off"
  }

  /** The names that select the tracing policy, compared after lower-casing. */
  predicate IsTraceName(lowered: string) {
    lowered == "trace" || lowered == "debug"
  }

  /** `make_policy`: a missing or empty name, or none/null/off in any case,
      gives the null policy; trace/debug in any case gives the tracing policy;
      every other name is an error. The name is not stripped. */
  function MakePolicy(name: Option<string>): (r: Result<PolicyBundle, PolicyError>)
    ensures r == Ok(PolicyBundle(NullPolicy)) <==>
              name.None? || name.value == "" || IsNullName(Lower(name.value))
    ensures r == Ok(PolicyBundle(TracePolicy)) <==>
              name.Some? && name.value != "" && IsTraceName(Lower(name.value))
    ensures r.Err? ==> name.Some? && r.error == UnknownPolicy(name.value)
  {
    if name.None? || name.value == "" || IsNullName(Lower(name.value)) then Ok(PolicyBundle(NullPolicy))
    else if IsTraceName(Lower(name.value)) then Ok(PolicyBundle(TracePolicy))
    else Err(UnknownPolicy(name.value))
  }

  /** Selection ignores case: a name and its lower-cased form select the same
      policy (or both fail). */
  lemma MakePolicyIgnoresCase(name: string)
    ensures MakePolicy(Some(name)).Ok? <==> MakePolicy(Some(Lower(name))).Ok?
    ensures MakePolicy(Some(name)).Ok? ==> MakePolicy(Some(name)) == MakePolicy(Some(Lower(name)))
  {
    LowerIdempotent(name);
  }

  /** Surrounding whitespace is not stripped: " trace" is an unknown name. */
  lemma PaddedNameRejected()
    ensures MakePolicy(Some(" trace")) == Err(UnknownPolicy(" trace"))
  {
    var lowered := Lower(" trace");
    assert lowered[0] == ' ';
    assert !IsNullName(lowered) && !IsTraceName(lowered);
  }

  /** `n` successive calls of a policy's before-hook. */
  function RepeatBefore(p: Policy, ctx: Ctx, n: nat): Ctx
    decreases n
  {
    if n == 0 then ctx else p.BeforeStep(RepeatBefore(p, ctx, n - 1))
  }

  /** `n` before-hooks of the tracing policy raise the before-counter by
      exactly `n` and leave every other counter alone; the null policy leaves
      the context as it was. */
  lemma {:induction false} TraceCountsBeforeHooks(p: Policy, ctx: Ctx, n: nat)
    ensures var r := RepeatBefore(p, ctx, n);
      && (p.TracePolicy? ==> n > 0 ==> r.Keys == ctx.Keys + {HitsBefore})
      && (p.TracePolicy? ==> Count(r, HitsBefore) == Count(ctx, HitsBefore) + n)
      && (forall k :: k in ctx && k != HitsBefore ==> k in r && r[k] == ctx[k])
      && (p.NullPolicy? ==> r == ctx)
    decreases n
  {
    if n > 0 {
      TraceCountsBeforeHooks(p, ctx, n - 1);
    }
  }
}
