/** The lifecycle dispatcher: the bodies of the before- and after-initialization
    middleware, which thread the instance being activated through every
    registered BeanPostProcessor. */
module Lifecycle {

  /** The instance under activation. Wrapped models a post-processor that
      replaces the instance by a decorator (a proxy) around it. */
  datatype Obj = Plain(id: nat) | Wrapped(wrapper: nat, inner: Obj)

  /** A BeanPostProcessor: its PostProcessBeforeInitialization and
      PostProcessAfterInitialization hooks. */
  datatype BeanPostProcessor = BeanPostProcessor(before: Obj -> Obj, after: Obj -> Obj)

  /** Which hook a dispatch runs: PostProcessBeforeInitialization or
      PostProcessAfterInitialization. */
  datatype HookKind = BeforeInitialization | AfterInitialization

  /** A value of the container's shared property bag (IDictionary<string, object>). */
  datatype PropertyValue =
    | PostProcessorList(processors: seq<BeanPostProcessor>)   // a List<BeanPostProcessor>
    | OtherObject(tag: nat)                                    // an object of any other type
    | NullValue

  /** The key under which the post-processors are published: C#'s
      nameof(List<BeanPostProcessor>) is the simple name "List". */
  const PostProcessorKey: string := "List"

  function Hook(p: BeanPostProcessor, hook: HookKind): Obj -> Obj
  {
    match hook
    case BeforeInitialization => p.before
    case AfterInitialization => p.after
  }

  /** The instance after the hooks of ps, applied in list order, each to the
      output of the previous one (defined on the last hook so that it reads as
      the foreach loop after |ps| steps). */
  function Chain(ps: seq<BeanPostProcessor>, hook: HookKind, x: Obj): Obj
  {
    if ps == [] then x
    else Hook(ps[|ps| - 1], hook)(Chain(ps[..|ps| - 1], hook, x))
  }

  /** The post-processors the dispatcher finds in the property bag, if any. */
  function Registered(properties: map<string, PropertyValue>): seq<BeanPostProcessor>
  {
    if PostProcessorKey in properties && properties[PostProcessorKey].PostProcessorList?
    then properties[PostProcessorKey].processors
    else []
  }

  /** The instance after DoBeforeBeanPostProcessor / DoAfterBeanPostProcessor. */
  function Dispatch(properties: map<string, PropertyValue>, hook: HookKind, x: Obj): (r: Obj)
    // missing key, a value that is not a List<BeanPostProcessor>, or an empty list: no-op
    ensures Registered(properties) == [] ==> r == x
    ensures r == Chain(Registered(properties), hook, x)
  {
    if PostProcessorKey !in properties then x
    else match properties[PostProcessorKey]
      case PostProcessorList(ps) => if |ps| == 0 then x else Chain(ps, hook, x)
      case _ => x
  }

  /** Chain of responsibility: the first hook receives the original instance and
      the rest of the chain receives its output. */
  lemma {:induction false} ChainFirst(ps: seq<BeanPostProcessor>, hook: HookKind, x: Obj)
    requires ps != []
    ensures Chain(ps, hook, x) == Chain(ps[1..], hook, Hook(ps[0], hook)(x))
  {
    if |ps| > 1 {
      var init := ps[..|ps| - 1];
      ChainFirst(init, hook, x);
      assert init[1..] == ps[1..][..|ps[1..]| - 1];
      assert ps[1..][|ps[1..]| - 1] == ps[|ps| - 1];
    } else {
      assert ps[1..] == [] && ps[..|ps| - 1] == [];
    }
  }

  /** Running the hooks of ps and then those of qs is running the hooks of ps + qs. */
  lemma {:induction false} ChainAppend(ps: seq<BeanPostProcessor>, qs: seq<BeanPostProcessor>, hook: HookKind, x: Obj)
    ensures Chain(ps + qs, hook, x) == Chain(qs, hook, Chain(ps, hook, x))
  {
    if qs == [] {
      assert ps + qs == ps;
    } else {
      var init := qs[..|qs| - 1];
      ChainAppend(ps, init, hook, x);
      assert (ps + qs)[..|ps + qs| - 1] == ps + init;
      assert (ps + qs)[|ps + qs| - 1] == qs[|qs| - 1];
    }
  }

  function WrapWith(n: nat): Obj -> Obj
  {
    x => Wrapped(n, x)
  }

  /** Two post-processors registered as [P1, P2], each wrapping the instance in
      its own decorator: the activated instance is wrapped first by P1 and then
      by P2, for both hook kinds. */
  lemma TwoDecorators(properties: map<string, PropertyValue>, hook: HookKind, x: Obj)
    requires PostProcessorKey in properties
    requires properties[PostProcessorKey] ==
      PostProcessorList([BeanPostProcessor(WrapWith(1), WrapWith(1)), BeanPostProcessor(WrapWith(2), WrapWith(2))])
    ensures Dispatch(properties, hook, x) == Wrapped(2, Wrapped(1, x))
  {
    var ps := properties[PostProcessorKey].processors;
    assert Hook(ps[0], hook) == WrapWith(1) && Hook(ps[1], hook) == WrapWith(2);
    assert ps[..1][..0] == [] && ps[..|ps| - 1] == ps[..1];
    calc {
      Chain(ps, hook, x);
      WrapWith(2)(Chain(ps[..1], hook, x));
      WrapWith(2)(WrapWith(1)(Chain([], hook, x)));
      Wrapped(2, Wrapped(1, x));
    }
  }

  /** The ResolveRequestContext of one activation: the component registry's
      property bag and the in-flight instance, which middleware reassigns. */
  class ResolveRequestContext {
    const properties: map<string, PropertyValue>
    var instance: Obj

    constructor (properties: map<string, PropertyValue>, instance: Obj)
      ensures this.properties == properties && this.instance == instance
    {
      this.properties := properties;
      this.instance := instance;
    }
  }

  /** DoBeforeBeanPostProcessor and DoAfterBeanPostProcessor (one body, the hook kind
      selecting which hook of each post-processor runs). */
  method DoBeanPostProcessor(context: ResolveRequestContext, hook: HookKind)
    modifies context`instance
    ensures context.instance == Dispatch(context.properties, hook, old(context.instance))
  {
    if PostProcessorKey !in context.properties {
      return;
    }
    var temp := context.properties[PostProcessorKey];
    if !temp.PostProcessorList? || |temp.processors| == 0 {
      return;
    }
    var beanPostProcessors := temp.processors;
    ghost var start := context.instance;
    for i := 0 to |beanPostProcessors|
      invariant context.instance == Chain(beanPostProcessors[..i], hook, start)
    {
      assert beanPostProcessors[..i + 1][..i] == beanPostProcessors[..i];
      context.instance := Hook(beanPostProcessors[i], hook)(context.instance);
    }
    assert beanPostProcessors[..|beanPostProcessors|] == beanPostProcessors;
  }

  /** The middleware a before/after stage installs: let the rest of the pipeline
      (next) produce the instance, then dispatch the post-processors on it. */
  method RunPostProcessStage(context: ResolveRequestContext, hook: HookKind, next: Obj -> Obj)
    modifies context`instance
    ensures context.instance == Dispatch(context.properties, hook, next(old(context.instance)))
  {
    context.instance := next(context.instance);
    DoBeanPostProcessor(context, hook);
  }
}
