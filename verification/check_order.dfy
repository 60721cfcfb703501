/** A reference semantics for the facade's handlers, written independently of
    their nested `if`s: each handler is described by its PLAN, the list of
    checks it runs before its one command call, in order. A request fails
    with the error of the first check that fails, after exactly the storage
    calls of the checks up to and including it; when every check passes the
    command is called once. */
module CheckOrder {
  import opened JsValues
  import opened Errors
  import opened Collaborators
  import opened FirebaseStorageApi

  /** One check a handler runs before calling its command. */
  datatype Check =
    | Field(name: string) // CheckHasBodyProp(body, name)
    | ResolveBucket       // getBucket(bucketname)
    | CopySource          // Copy's `items` / `singleFileName` selection

  /** What the checks of one request consult. */
  datatype Ctx = Ctx(body: Body, bucketname: JsValue, env: Env)

  const ListPlan: seq<Check> := [Field("path"), ResolveBucket]
  const RenamePlan: seq<Check> := [Field("item"), Field("newItemPath"), ResolveBucket]
  const MovePlan: seq<Check> := [ResolveBucket, Field("items"), Field("newPath")]
  const CopyPlan: seq<Check> := [Field("newPath"), ResolveBucket, CopySource]
  const RemovePlan: seq<Check> := [Field("items"), ResolveBucket]
  const EditPlan: seq<Check> := [Field("item"), Field("content"), ResolveBucket]
  const GetContentPlan: seq<Check> := [Field("item"), ResolveBucket]
  const GetMetaPlan: seq<Check> := [Field("item"), ResolveBucket]
  const CreateFolderPlan: seq<Check> := [Field("newPath"), ResolveBucket]
  const SetPermissionsPlan: seq<Check> := [Field("items"), Field("role"), Field("entity"), ResolveBucket]
  const SaveFilePlan: seq<Check> := [ResolveBucket]

  /** The error check `c` fails with, if it fails. */
  function CheckError(c: Check, ctx: Ctx): Option<Error>
  {
    match c
    case Field(name) => CheckHasBodyProp(ctx.body, name)
    case ResolveBucket =>
      var b := GetBucket(ctx.bucketname, ctx.env);
      if b.result.Failure? then Some(b.result.error) else None
    case CopySource =>
      if Truthy(Prop(ctx.body, "items")) || Truthy(Prop(ctx.body, "singleFileName")) then None
      else Some(NoCopySource)
  }

  /** The storage calls check `c` makes. */
  function CheckEffects(c: Check, ctx: Ctx): seq<Effect>
  {
    if c == ResolveBucket then GetBucket(ctx.bucketname, ctx.env).effects else []
  }

  /** Check `i` is the first check of `plan` that fails. */
  predicate FailsFirstAt(plan: seq<Check>, ctx: Ctx, i: int)
  {
    && 0 <= i < |plan|
    && CheckError(plan[i], ctx).Some?
    && forall j :: 0 <= j < i ==> CheckError(plan[j], ctx).None?
  }

  predicate AllPass(plan: seq<Check>, ctx: Ctx)
  {
    forall j :: 0 <= j < |plan| ==> CheckError(plan[j], ctx).None?
  }

  /** `plan` resolves the bucket once, as check `k`. */
  predicate ResolvesBucketOnlyAt(plan: seq<Check>, k: int)
  {
    && 0 <= k < |plan|
    && plan[k] == ResolveBucket
    && forall j :: 0 <= j < |plan| && j != k ==> plan[j] != ResolveBucket
  }

  /** The first failing check at or after `k`, with its error. */
  function FirstFailure(plan: seq<Check>, ctx: Ctx, k: nat): (r: Option<(nat, Error)>)
    requires k <= |plan|
    ensures r.Some? ==>
              && k <= r.value.0 < |plan|
              && CheckError(plan[r.value.0], ctx) == Some(r.value.1)
              && forall j :: k <= j < r.value.0 ==> CheckError(plan[j], ctx).None?
    ensures r.None? ==> forall j :: k <= j < |plan| ==> CheckError(plan[j], ctx).None?
    decreases |plan| - k
  {
    if k == |plan| then None
    else match CheckError(plan[k], ctx)
      case Some(e) => Some((k, e))
      case None => FirstFailure(plan, ctx, k + 1)
  }

  /** The storage calls of the first `n` checks, in order. */
  function EffectsThrough(plan: seq<Check>, ctx: Ctx, n: nat): seq<Effect>
    requires n <= |plan|
  {
    if n == 0 then [] else EffectsThrough(plan, ctx, n - 1) + CheckEffects(plan[n - 1], ctx)
  }

  /** What a handler with this plan, command call, envelope shape and rethrow
      policy answers. */
  function Reference(plan: seq<Check>, ctx: Ctx, call: Command, shape: Shape, policy: Policy): Response
  {
    match FirstFailure(plan, ctx, 0)
    case Some((i, e)) => Reject(policy, e, EffectsThrough(plan, ctx, i + 1))
    case None => Dispatch(ctx.env, call, EffectsThrough(plan, ctx, |plan|), shape, policy)
  }

  /** `FirstFailure` finds exactly the first failing check. */
  lemma FirstFailureIsFirst(plan: seq<Check>, ctx: Ctx, i: nat, e: Error)
    ensures FirstFailure(plan, ctx, 0) == Some((i, e)) <==>
              FailsFirstAt(plan, ctx, i) && CheckError(plan[i], ctx) == Some(e)
    ensures FirstFailure(plan, ctx, 0).None? <==> AllPass(plan, ctx)
  {
  }

  /** Only the bucket check talks to storage. */
  lemma OnlyBucketCheckCalls(plan: seq<Check>, ctx: Ctx, k: int, j: int)
    requires ResolvesBucketOnlyAt(plan, k)
    requires 0 <= j < |plan|
    ensures CheckEffects(plan[j], ctx) == (if j == k then GetBucket(ctx.bucketname, ctx.env).effects else [])
  {
  }

  /** So the calls made up to any point of a plan are those of `getBucket`
      once it has been reached. */
  lemma EffectsThroughOneBucket(plan: seq<Check>, ctx: Ctx, k: int, n: nat)
    requires ResolvesBucketOnlyAt(plan, k)
    requires n <= |plan|
    ensures EffectsThrough(plan, ctx, n) ==
              (if n <= k then [] else GetBucket(ctx.bucketname, ctx.env).effects)
  {
    var calls := GetBucket(ctx.bucketname, ctx.env).effects;
    forall j | 0 <= j < |plan|
      ensures CheckEffects(plan[j], ctx) == (if j == k then calls else [])
    {
      OnlyBucketCheckCalls(plan, ctx, k, j);
    }
    EffectsThroughSingleCall(plan, ctx, k, n, calls);
  }

  lemma {:induction false} EffectsThroughSingleCall(plan: seq<Check>, ctx: Ctx, k: int, n: nat, calls: seq<Effect>)
    requires 0 <= k && n <= |plan|
    requires forall j :: 0 <= j < |plan| ==> CheckEffects(plan[j], ctx) == (if j == k then calls else [])
    ensures EffectsThrough(plan, ctx, n) == (if n <= k then [] else calls)
  {
    if n > 0 {
      EffectsThroughSingleCall(plan, ctx, k, n - 1, calls);
      var step := CheckEffects(plan[n - 1], ctx);
      assert EffectsThrough(plan, ctx, n) == EffectsThrough(plan, ctx, n - 1) + step;
      if n - 1 == k {
        assert [] + calls == calls;
      } else {
        assert step == [];
      }
    }
  }

  /** The calls a request makes: those of its checks up to the first that
      fails, or of all its checks and then the command. */
  lemma ReferenceEffects(plan: seq<Check>, ctx: Ctx, call: Command, shape: Shape, policy: Policy)
    ensures Reference(plan, ctx, call, shape, policy).effects ==
            match FirstFailure(plan, ctx, 0)
            case Some((i, _)) => EffectsThrough(plan, ctx, i + 1)
            case None => EffectsThrough(plan, ctx, |plan|) + [Invoke(call)]
  {
  }

  /** The calls of a plan with one bucket check, by where it stops. */
  lemma ReferenceEffectsByStop(plan: seq<Check>, ctx: Ctx, k: int, call: Command, shape: Shape, policy: Policy)
    requires ResolvesBucketOnlyAt(plan, k)
    ensures var first := FirstFailure(plan, ctx, 0);
            Reference(plan, ctx, call, shape, policy).effects ==
              if first.None? then GetBucket(ctx.bucketname, ctx.env).effects + [Invoke(call)]
              else if first.value.0 < k then []
              else GetBucket(ctx.bucketname, ctx.env).effects
  {
    ReferenceEffects(plan, ctx, call, shape, policy);
    var first := FirstFailure(plan, ctx, 0);
    if first.Some? {
      EffectsThroughOneBucket(plan, ctx, k, first.value.0 + 1);
    } else {
      EffectsThroughOneBucket(plan, ctx, k, |plan|);
    }
  }

  /** Where a plan with one bucket check stops says which checks passed:
      all of them, those before the bucket check, and with the bucket check
      a truthy name. */
  lemma StopFacts(plan: seq<Check>, ctx: Ctx, k: int)
    requires ResolvesBucketOnlyAt(plan, k)
    ensures var first := FirstFailure(plan, ctx, 0);
            && (first.None? <==> AllPass(plan, ctx))
            && ((first.None? || first.value.0 >= k) <==>
                  forall j :: 0 <= j < k ==> CheckError(plan[j], ctx).None?)
            && (first.None? || first.value.0 > k ==> Truthy(ctx.bucketname))
  {
    var first := FirstFailure(plan, ctx, 0);
    if first.Some? && first.value.0 < k {
      assert CheckError(plan[first.value.0], ctx).Some?;
    }
    if first.None? || first.value.0 > k {
      assert CheckError(plan[k], ctx).None?;
    }
  }

  /** The call-list reasoning of `ReferenceCallSequence`, over plain values. */
  lemma CallsByStop(effects: seq<Effect>, name: JsValue, call: Command, stop: Option<nat>, k: int,
                    allPass: bool, beforePass: bool)
    requires effects == if stop.None? then (if Truthy(name) then [ExistsCheck(name)] else []) + [Invoke(call)]
                        else if stop.value < k then []
                        else if Truthy(name) then [ExistsCheck(name)] else []
    requires stop.None? <==> allPass
    requires (stop.None? || stop.value >= k) <==> beforePass
    requires stop.None? || stop.value > k ==> Truthy(name)
    ensures effects <= [ExistsCheck(name), Invoke(call)]
    ensures ExistsCheck(name) in effects <==> Truthy(name) && beforePass
    ensures Invoke(call) in effects <==> allPass
  {
  }

  /** A handler makes at most two calls: the bucket check first, then the
      command. It asks storage exactly when every check before the bucket
      check passed and the bucket name is truthy, and calls the command
      exactly when every check passed. */
  lemma ReferenceCallSequence(plan: seq<Check>, ctx: Ctx, k: int, call: Command, shape: Shape, policy: Policy)
    requires ResolvesBucketOnlyAt(plan, k)
    ensures var r := Reference(plan, ctx, call, shape, policy);
            && r.effects <= [ExistsCheck(ctx.bucketname), Invoke(call)]
            && (ExistsCheck(ctx.bucketname) in r.effects <==>
                  Truthy(ctx.bucketname) && forall j :: 0 <= j < k ==> CheckError(plan[j], ctx).None?)
            && (Invoke(call) in r.effects <==> AllPass(plan, ctx))
  {
    var first := FirstFailure(plan, ctx, 0);
    var stop: Option<nat> := if first.None? then None else Some(first.value.0);
    ReferenceEffectsByStop(plan, ctx, k, call, shape, policy);
    StopFacts(plan, ctx, k);
    CallsByStop(Reference(plan, ctx, call, shape, policy).effects, ctx.bucketname, call, stop, k,
                AllPass(plan, ctx), forall j :: 0 <= j < k ==> CheckError(plan[j], ctx).None?);
  }

  /** The first failing check decides the error; a request that passes every
      check resolves with the command's value in the handler's envelope, or
      rejects with the command's error. */
  lemma ReferenceOutcome(plan: seq<Check>, ctx: Ctx, call: Command, shape: Shape, policy: Policy)
    ensures var r := Reference(plan, ctx, call, shape, policy);
            && (forall i :: FailsFirstAt(plan, ctx, i) ==>
                  r.outcome == Err(Wrap(policy, CheckError(plan[i], ctx).value)))
            && (r.outcome.Ok? <==> AllPass(plan, ctx) && ctx.env.run(call).Returned?)
            && (r.outcome.Ok? ==> r.outcome.envelope == Envelope(shape, ctx.env.run(call).value))
            && (AllPass(plan, ctx) && ctx.env.run(call).Failed? ==>
                  r.outcome == Err(Wrap(policy, ctx.env.run(call).error)))
  {
  }

  /** Two requests whose checks and storage answers agree fail at the same
      check, after the same calls at every point of the plan. */
  lemma FirstFailureLocal(plan: seq<Check>, ctx: Ctx, ctx': Ctx, k: nat)
    requires k <= |plan|
    requires forall j :: 0 <= j < |plan| ==> CheckError(plan[j], ctx) == CheckError(plan[j], ctx')
    requires forall j :: 0 <= j < |plan| ==> CheckEffects(plan[j], ctx) == CheckEffects(plan[j], ctx')
    ensures FirstFailure(plan, ctx, k) == FirstFailure(plan, ctx', k)
    ensures forall n :: 0 <= n <= |plan| ==> EffectsThrough(plan, ctx, n) == EffectsThrough(plan, ctx', n)
  {
    FirstFailureAgrees(plan, ctx, ctx', k);
    forall n | 0 <= n <= |plan|
      ensures EffectsThrough(plan, ctx, n) == EffectsThrough(plan, ctx', n)
    {
      EffectsThroughLocal(plan, ctx, ctx', n);
    }
  }

  lemma {:induction false} FirstFailureAgrees(plan: seq<Check>, ctx: Ctx, ctx': Ctx, k: nat)
    requires k <= |plan|
    requires forall j :: 0 <= j < |plan| ==> CheckError(plan[j], ctx) == CheckError(plan[j], ctx')
    ensures FirstFailure(plan, ctx, k) == FirstFailure(plan, ctx', k)
    decreases |plan| - k
  {
    if k < |plan| {
      FirstFailureAgrees(plan, ctx, ctx', k + 1);
      var c := plan[k];
      assert CheckError(c, ctx) == CheckError(c, ctx');
    }
  }

  lemma {:induction false} EffectsThroughLocal(plan: seq<Check>, ctx: Ctx, ctx': Ctx, n: nat)
    requires n <= |plan|
    requires forall j :: 0 <= j < |plan| ==> CheckEffects(plan[j], ctx) == CheckEffects(plan[j], ctx')
    ensures EffectsThrough(plan, ctx, n) == EffectsThrough(plan, ctx', n)
  {
    if n > 0 {
      EffectsThroughLocal(plan, ctx, ctx', n - 1);
    }
  }

  /** Handlers keep no state between requests: a handler's answer depends on
      the collaborators only through the existence answer for its own bucket
      name and the reply to its own command call. */
  lemma ReferenceIsRequestScoped(plan: seq<Check>, body: Body, bucketname: JsValue, env: Env, env': Env,
                                 call: Command, shape: Shape, policy: Policy)
    requires env.bucketExists(bucketname) == env'.bucketExists(bucketname)
    requires env.run(call) == env'.run(call)
    ensures Reference(plan, Ctx(body, bucketname, env), call, shape, policy) ==
            Reference(plan, Ctx(body, bucketname, env'), call, shape, policy)
  {
    var ctx, ctx' := Ctx(body, bucketname, env), Ctx(body, bucketname, env');
    assert GetBucket(bucketname, env) == GetBucket(bucketname, env');
    forall j | 0 <= j < |plan|
      ensures CheckError(plan[j], ctx) == CheckError(plan[j], ctx')
      ensures CheckEffects(plan[j], ctx) == CheckEffects(plan[j], ctx')
    {
    }
    FirstFailureLocal(plan, ctx, ctx', 0);
  }
}
