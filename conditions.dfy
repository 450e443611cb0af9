/** Condition evaluation: decides whether a class or a factory method is skipped
    because one of its [Conditional] markers says so. */
module Conditions {
  import opened Annotations

  /** What Activator.CreateInstance(type) as ICondition yields: an ICondition
      instance, an object that is not an ICondition (the cast gives null), or an
      exception from the constructor (which propagates to the caller). */
  datatype Creation<C> = Created(instance: C) | NotACondition | ConstructorThrew

  /** The reflective services shouldSkip relies on, as total functions:
      - assignableToConditional(t): typeof(Conditional).IsAssignableFrom(t);
      - create(t): Activator.CreateInstance(t) as ICondition;
      - skips(c, m): c.ShouldSkip(context, m), the registry builder being fixed
        for the whole call. */
  datatype ConditionEnv<!C(==)> = ConditionEnv(
    assignableToConditional: TypeId -> bool,
    create: TypeId -> Creation<C>,
    skips: (C, ConditionalMarker) -> bool)

  /** The target named in the error message: a class, or a factory method of one. */
  datatype Owner =
    | TypeOwner(namespace: string, name: string)
    | MethodOwner(namespace: string, name: string, methodName: string)

  datatype ConditionError =
    | InvalidConditionType(owner: Owner, predicateType: Option<TypeId>)   // InvalidCastException
    | ActivationFailed(failedType: TypeId)   // CreateInstance's own exception, passed through unchanged

  /** The guard that throws InvalidCastException. As written it rejects a null
      predicate type and a predicate type that IS assignable to Conditional. */
  predicate Rejected<C(==)>(env: ConditionEnv<C>, m: ConditionalMarker)
  {
    m.predicateType.None? || env.assignableToConditional(m.predicateType.value)
  }

  /** The marker at which the loop leaves: it is rejected, its predicate's
      constructor throws, or its predicate says skip. */
  predicate Stops<C(==)>(env: ConditionEnv<C>, m: ConditionalMarker)
  {
    Rejected(env, m) ||
    match env.create(m.predicateType.value)
    case ConstructorThrew => true
    case NotACondition => false
    case Created(c) => env.skips(c, m)
  }

  /** The marker whose predicate is asked ShouldSkip when the loop reaches it. */
  predicate EvaluatedAt<C(==)>(env: ConditionEnv<C>, ms: seq<ConditionalMarker>, k: int)
  {
    0 <= k < |ms| && !Rejected(env, ms[k]) && env.create(ms[k].predicateType.value).Created?
  }

  /** Index of the first marker at which the loop leaves, |ms| when it runs to the end. */
  function StopIndex<C(==)>(env: ConditionEnv<C>, ms: seq<ConditionalMarker>): (k: nat)
    ensures k <= |ms|
    ensures forall i :: 0 <= i < k ==> !Stops(env, ms[i])
    ensures k < |ms| ==> Stops(env, ms[k])
  {
    if ms == [] then 0
    else if Stops(env, ms[0]) then 0
    else 1 + StopIndex(env, ms[1..])
  }

  /** How many markers the loop looks at. */
  function Processed<C(==)>(env: ConditionEnv<C>, ms: seq<ConditionalMarker>): (n: nat)
    ensures n <= |ms|
  {
    var k := StopIndex(env, ms);
    if k < |ms| then k + 1 else |ms|
  }

  /** The predicate types that pass the guard among the first n markers. */
  function AttemptedTypes<C>(env: ConditionEnv<C>, ms: seq<ConditionalMarker>, n: nat): set<TypeId>
    requires n <= |ms|
  {
    if n == 0 then {}
    else AttemptedTypes(env, ms, n - 1) +
         (if Rejected(env, ms[n - 1]) then {} else {ms[n - 1].predicateType.value})
  }

  /** The keys of the cache after the first n markers: the attempted predicate
      types whose instance is an ICondition. */
  function CachedTypes<C>(env: ConditionEnv<C>, ms: seq<ConditionalMarker>, n: nat): set<TypeId>
    requires n <= |ms|
  {
    set t | t in AttemptedTypes(env, ms, n) && env.create(t).Created?
  }

  /** The CreateInstance calls made for the first n markers, in call order: a
      marker that passes the guard creates its predicate unless the cache holds it. */
  function CreationLog<C>(env: ConditionEnv<C>, ms: seq<ConditionalMarker>, n: nat): seq<TypeId>
    requires n <= |ms|
  {
    if n == 0 then []
    else
      var m := ms[n - 1];
      CreationLog(env, ms, n - 1) +
      (if !Rejected(env, m) && m.predicateType.value !in CachedTypes(env, ms, n - 1)
       then [m.predicateType.value] else [])
  }

  /** The indices of the markers, among the first n, whose predicate is asked ShouldSkip. */
  function EvaluationLog<C>(env: ConditionEnv<C>, ms: seq<ConditionalMarker>, n: nat): seq<nat>
    requires n <= |ms|
  {
    if n == 0 then []
    else EvaluationLog(env, ms, n - 1) + (if EvaluatedAt(env, ms, n - 1) then [n - 1] else [])
  }

  /** The outcome of shouldSkip over the markers ms of owner. */
  function Verdict<C(==)>(env: ConditionEnv<C>, owner: Owner, ms: seq<ConditionalMarker>): Result<bool, ConditionError>
  {
    var k := StopIndex(env, ms);
    if k == |ms| then Success(false)
    else if Rejected(env, ms[k]) then Failure(InvalidConditionType(owner, ms[k].predicateType))
    else if env.create(ms[k].predicateType.value).ConstructorThrew? then
      Failure(ActivationFailed(ms[k].predicateType.value))
    else Success(true)
  }

  /** What the verdict means. */
  lemma VerdictMeaning<C>(env: ConditionEnv<C>, owner: Owner, ms: seq<ConditionalMarker>)
    // no markers: not skipped
    ensures ms == [] ==> Verdict(env, owner, ms) == Success(false)
    // false exactly when every marker passes the guard, constructs, and lets the target through
    ensures Verdict(env, owner, ms) == Success(false) <==> forall i :: 0 <= i < |ms| ==> !Stops(env, ms[i])
    // true exactly when some marker says skip and every marker before it lets the target through
    ensures Verdict(env, owner, ms) == Success(true) <==>
      exists k :: 0 <= k < |ms| && EvaluatedAt(env, ms, k) &&
        env.skips(env.create(ms[k].predicateType.value).instance, ms[k]) &&
        forall i :: 0 <= i < k ==> !Stops(env, ms[i])
    // otherwise the error of the first marker that stops the loop; only the
    // InvalidCastException names the owner
    ensures var r := Verdict(env, owner, ms); var k := StopIndex(env, ms);
      r.Failure? ==>
        k < |ms| &&
        (r.error.InvalidConditionType? <==> Rejected(env, ms[k])) &&
        (r.error.InvalidConditionType? ==>
           r.error.owner == owner && r.error.predicateType == ms[k].predicateType) &&
        (r.error.ActivationFailed? ==>
           r.error.failedType == ms[k].predicateType.value && env.create(r.error.failedType).ConstructorThrew?)
  {
  }

  /** The loop of shouldSkip over an ordered list of markers, with its per-call
      cache of predicate instances. Besides the verdict it returns the predicate
      types handed to CreateInstance, in call order, and the indices of the markers
      whose predicate was asked ShouldSkip, in call order. */
  method ShouldSkipMarkers<C(==)>(env: ConditionEnv<C>, owner: Owner, ms: seq<ConditionalMarker>)
    returns (r: Result<bool, ConditionError>, created: seq<TypeId>, evaluated: seq<nat>)
    ensures r == Verdict(env, owner, ms)
    ensures created == CreationLog(env, ms, Processed(env, ms))
    ensures evaluated == EvaluationLog(env, ms, Processed(env, ms))
  {
    created, evaluated := [], [];
    if |ms| == 0 {
      return Success(false), created, evaluated;
    }
    var cache: map<TypeId, C> := map[];
    var i := 0;
    while i < |ms|
      invariant 0 <= i <= |ms|
      invariant forall j :: 0 <= j < i ==> !Stops(env, ms[j])
      invariant cache.Keys == CachedTypes(env, ms, i)
      invariant forall t :: t in cache ==> cache[t] == env.create(t).instance
      invariant created == CreationLog(env, ms, i)
      invariant evaluated == EvaluationLog(env, ms, i)
    {
      var m := ms[i];
      if m.predicateType.None? || env.assignableToConditional(m.predicateType.value) {
        StopsAt(env, ms, i);
        return Failure(InvalidConditionType(owner, m.predicateType)), created, evaluated;
      }
      var t := m.predicateType.value;
      var found: Option<C>;
      if t in cache {
        found := Some(cache[t]);
      } else {
        var made := env.create(t);
        created := created + [t];
        if made.ConstructorThrew? {
          StopsAt(env, ms, i);
          return Failure(ActivationFailed(t)), created, evaluated;
        }
        if made.Created? {
          found := Some(made.instance);
          cache := cache[t := made.instance];
        } else {
          found := None;
        }
      }
      if found.Some? {
        evaluated := evaluated + [i];
        if env.skips(found.value, m) {
          StopsAt(env, ms, i);
          return Success(true), created, evaluated;
        }
      }
      i := i + 1;
    }
    assert StopIndex(env, ms) == |ms|;
    return Success(false), created, evaluated;
  }

  lemma StopsAt<C>(env: ConditionEnv<C>, ms: seq<ConditionalMarker>, i: nat)
    requires i < |ms| && Stops(env, ms[i])
    requires forall j :: 0 <= j < i ==> !Stops(env, ms[j])
    ensures StopIndex(env, ms) == i && Processed(env, ms) == i + 1
  {
  }

  /** CreateInstance is called for exactly the predicate types of the markers
      that pass the guard. */
  lemma {:induction false} CreationLogCovers<C>(env: ConditionEnv<C>, ms: seq<ConditionalMarker>, n: nat)
    requires n <= |ms|
    ensures forall t :: t in CreationLog(env, ms, n) <==> t in AttemptedTypes(env, ms, n)
  {
    if n > 0 {
      CreationLogCovers(env, ms, n - 1);
    }
  }

  /** Within one call a predicate type whose instance is an ICondition is created
      at most once: only an object that is not an ICondition escapes the cache and
      is created again by a later marker. */
  lemma {:induction false} CreationLogOnce<C>(env: ConditionEnv<C>, ms: seq<ConditionalMarker>, n: nat)
    requires n <= Processed(env, ms)
    ensures forall a, b :: 0 <= a < b < |CreationLog(env, ms, n)| && CreationLog(env, ms, n)[a] == CreationLog(env, ms, n)[b] ==>
      env.create(CreationLog(env, ms, n)[a]).NotACondition?
  {
    if n > 0 {
      CreationLogOnce(env, ms, n - 1);
      CreationLogCovers(env, ms, n - 1);
      AttemptedTypesFrom(env, ms, n - 1);
      var prev := CreationLog(env, ms, n - 1);
      var m := ms[n - 1];
      if !Rejected(env, m) && m.predicateType.value !in CachedTypes(env, ms, n - 1) {
        var t := m.predicateType.value;
        var log := CreationLog(env, ms, n);
        assert log == prev + [t];
        forall a | 0 <= a < |prev| && prev[a] == t
          ensures env.create(t).NotACondition?
        {
          assert t in AttemptedTypes(env, ms, n - 1);
          var k :| 0 <= k < n - 1 && ms[k].predicateType == Some(t);
          assert !Stops(env, ms[k]);
          assert t in CachedTypes(env, ms, n - 1) <==> env.create(t).Created?;
        }
        forall a, b | 0 <= a < b < |log| && log[a] == log[b]
          ensures env.create(log[a]).NotACondition?
        {
          if b < |prev| {
            assert log[a] == prev[a] && log[b] == prev[b];
          } else {
            assert log[a] == prev[a] && log[b] == t;
            assert prev[a] == t;
          }
        }
      } else {
        assert CreationLog(env, ms, n) == prev;
      }
    }
  }

  /** ShouldSkip is asked, in marker order, of exactly the markers that pass the
      guard and construct an ICondition. */
  lemma {:induction false} EvaluationLogOrdered<C>(env: ConditionEnv<C>, ms: seq<ConditionalMarker>, n: nat)
    requires n <= |ms|
    ensures var log := EvaluationLog(env, ms, n);
      (forall k :: k in log <==> k < n && EvaluatedAt(env, ms, k)) &&
      (forall a, b :: 0 <= a < b < |log| ==> log[a] < log[b])
  {
    if n > 0 {
      EvaluationLogOrdered(env, ms, n - 1);
      var prev := EvaluationLog(env, ms, n - 1);
      assert forall a :: 0 <= a < |prev| ==> prev[a] in prev;
    }
  }

  /** Short circuit: no predicate is constructed or asked for a marker after the
      one that stops the loop, and a target without markers constructs nothing. */
  lemma ShortCircuit<C>(env: ConditionEnv<C>, ms: seq<ConditionalMarker>)
    ensures ms == [] ==> CreationLog(env, ms, Processed(env, ms)) == [] &&
                         EvaluationLog(env, ms, Processed(env, ms)) == []
    ensures forall k :: k in EvaluationLog(env, ms, Processed(env, ms)) ==> k <= StopIndex(env, ms)
    ensures forall t :: t in CreationLog(env, ms, Processed(env, ms)) ==>
      exists k :: 0 <= k <= StopIndex(env, ms) && k < |ms| && ms[k].predicateType == Some(t)
  {
    EvaluationLogOrdered(env, ms, Processed(env, ms));
    CreationLogCovers(env, ms, Processed(env, ms));
    AttemptedTypesFrom(env, ms, Processed(env, ms));
  }

  lemma {:induction false} AttemptedTypesFrom<C>(env: ConditionEnv<C>, ms: seq<ConditionalMarker>, n: nat)
    requires n <= |ms|
    ensures forall t :: t in AttemptedTypes(env, ms, n) ==>
      exists k :: 0 <= k < n && ms[k].predicateType == Some(t)
  {
    if n > 0 {
      AttemptedTypesFrom(env, ms, n - 1);
    }
  }

  /** shouldSkip(context, currentType): the class-level [Conditional] markers. */
  method ShouldSkipType<C(==)>(env: ConditionEnv<C>, currentType: TypeInfo)
    returns (r: Result<bool, ConditionError>, created: seq<TypeId>, evaluated: seq<nat>)
    ensures var ms := currentType.conditionals;
      r == Verdict(env, TypeOwner(currentType.namespace, currentType.name), ms) &&
      created == CreationLog(env, ms, Processed(env, ms)) &&
      evaluated == EvaluationLog(env, ms, Processed(env, ms))
  {
    r, created, evaluated :=
      ShouldSkipMarkers(env, TypeOwner(currentType.namespace, currentType.name), currentType.conditionals);
  }

  /** shouldSkip(context, currentType, beanMethod): the method-level [Conditional]
      markers of a factory method, evaluated on their own; the error names the
      method as well. */
  method ShouldSkipBeanMethod<C(==)>(env: ConditionEnv<C>, currentType: TypeInfo, beanMethod: BeanMethod)
    returns (r: Result<bool, ConditionError>, created: seq<TypeId>, evaluated: seq<nat>)
    ensures var ms := beanMethod.conditionals;
      r == Verdict(env, MethodOwner(currentType.namespace, currentType.name, beanMethod.name), ms) &&
      created == CreationLog(env, ms, Processed(env, ms)) &&
      evaluated == EvaluationLog(env, ms, Processed(env, ms))
  {
    r, created, evaluated := ShouldSkipMarkers(
      env, MethodOwner(currentType.namespace, currentType.name, beanMethod.name), beanMethod.conditionals);
  }
}
