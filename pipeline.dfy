/** The pipeline installer's decisions and the stages it records: which middleware
    a component's activation pipeline receives, in which phase and where in it. */
module Pipeline {
  import opened Annotations
  import Lifecycle

  datatype PipelinePhase = RegistrationPipelineStart | Activation

  datatype InsertionMode = StartOfPhase | EndOfPhase

  /** What a stage does when it runs. */
  datatype StageKind =
    | PostProcess(hook: Lifecycle.HookKind)                          // next, then Do{Before,After}BeanPostProcessor
    | ResolveDependsOn(owner: TypeId, dependsOn: seq<TypeId>)     // resolve each depends-on type, then next

  datatype Stage = Stage(phase: PipelinePhase, mode: InsertionMode, kind: StageKind)

  /** The registration handle an overload receives. */
  datatype BuilderShape =
    | GenericBuilder          // IRegistrationBuilder<object, TReflectionActivatorData, object>
    | ConcreteBuilder         // IRegistrationBuilder<object, ConcreteReflectionActivatorData, SingleRegistrationStyle>
    | ComponentRegistration   // IComponentRegistration

  /** The stages a Register{Before,After}BeanPostProcessor overload installs for
      a component, given the assembly of the module itself and Autofac's assembly. */
  function PostProcessStages(selfAssembly: AssemblyId, autofacAssembly: AssemblyId, shape: BuilderShape,
                             hook: Lifecycle.HookKind, component: ComponentModel): (r: seq<Stage>)
    ensures |r| <= 1
    // a post-processor is never post-processed; only the generic overloads also
    // leave out the framework's own types and Autofac's
    ensures r != [] <==>
      !component.isBeanPostProcessor &&
      (shape.GenericBuilder? ==> component.currentType.assembly !in {selfAssembly, autofacAssembly})
    // an Activation-phase stage running the requested hook; the "after" stage of
    // the non-generic overloads goes to the end of the phase, every other stage
    // to its start
    ensures forall s :: s in r ==>
      s.phase == Activation && s.kind == PostProcess(hook) &&
      (s.mode == EndOfPhase <==> hook.AfterInitialization? && !shape.GenericBuilder?)
  {
    if shape.GenericBuilder? &&
       (component.currentType.assembly == selfAssembly || component.currentType.assembly == autofacAssembly)
    then []
    else if component.isBeanPostProcessor then []
    else if hook.AfterInitialization? && !shape.GenericBuilder? then [Stage(Activation, EndOfPhase, PostProcess(hook))]
    else [Stage(Activation, StartOfPhase, PostProcess(hook))]
  }

  /** The stages RegisterDependsOn installs: none without a DependsOn marker; one
      at the start of the registration pipeline otherwise, even for an empty list.
      The insertion mode is that of Autofac's Use(phase, callback) overload,
      which appends at the end of the phase. */
  function DependsOnStages(component: ComponentModel): (r: seq<Stage>)
    ensures |r| <= 1
    ensures r != [] <==> component.dependsOn.Some?
    ensures forall s :: s in r ==>
      s.phase == RegistrationPipelineStart && s.mode == EndOfPhase && s.kind.ResolveDependsOn? &&
      s.kind.owner == component.currentType.id && s.kind.dependsOn == component.dependsOn.value
  {
    match component.dependsOn
    case None => []
    case Some(types) => [Stage(RegistrationPipelineStart, EndOfPhase, ResolveDependsOn(component.currentType.id, types))]
  }

  /** Before- and after-stages agree on when they install: the placement is the
      only difference, and it arises only outside the generic overloads. */
  lemma BeforeAfterAgree(selfAssembly: AssemblyId, autofacAssembly: AssemblyId, shape: BuilderShape, component: ComponentModel)
    ensures var before := PostProcessStages(selfAssembly, autofacAssembly, shape, Lifecycle.BeforeInitialization, component);
            var after := PostProcessStages(selfAssembly, autofacAssembly, shape, Lifecycle.AfterInitialization, component);
      |before| == |after| &&
      (before != [] ==> before[0].mode == StartOfPhase && (after[0].mode == StartOfPhase <==> shape.GenericBuilder?))
  {
  }

  /** A registration's pipeline configuration: ConfigurePipeline(p => p.Use(...))
      records one stage. */
  class Registrar {
    var stages: seq<Stage>

    constructor ()
      ensures stages == []
    {
      stages := [];
    }

    method Use(phase: PipelinePhase, mode: InsertionMode, kind: StageKind)
      modifies this
      ensures stages == old(stages) + [Stage(phase, mode, kind)]
    {
      stages := stages + [Stage(phase, mode, kind)];
    }
  }

  /** What a depends-on stage does when it runs, in order. */
  datatype Event = Resolve(owner: TypeId, dependency: TypeId) | CallNext

  /** The body of the RegisterDependsOn middleware: resolve every depends-on type
      for the owner, in list order, and only then hand over to next. */
  method RunDependsOnStage(owner: TypeId, dependsOn: seq<TypeId>) returns (trace: seq<Event>)
    ensures |trace| == |dependsOn| + 1
    ensures forall j :: 0 <= j < |dependsOn| ==> trace[j] == Resolve(owner, dependsOn[j])
    ensures trace[|dependsOn|] == CallNext
  {
    trace := [];
    for i := 0 to |dependsOn|
      invariant |trace| == i
      invariant forall j :: 0 <= j < i ==> trace[j] == Resolve(owner, dependsOn[j])
    {
      trace := trace + [Resolve(owner, dependsOn[i])];
    }
    trace := trace + [CallNext];
  }
}
