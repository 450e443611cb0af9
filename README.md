# Discovery, conditional filtering and pipeline instrumentation of Autofac.Annotation

This project models the core of the Autofac.Annotation extension in Dafny: the
engine that scans loaded assemblies for annotated types, decides through
`[Conditional]` markers whether a class or a `[Bean]` factory method is skipped,
installs the before/after BeanPostProcessor and DependsOn middleware on a
registration's pipeline, and threads the instance under activation through the
registered post-processors. It also models `ProxyUtil.IsAccessible`, the
visibility test run before proxy generation.

Reflection is replaced by data. A type is a `TypeInfo` record holding its
flags, its assembly and the markers attached to it. `Activator.CreateInstance`,
`IsAssignableFrom` and `ICondition.ShouldSkip` become the total functions of a
`ConditionEnv`. `GetComponent(ComponentDetector)` and `doImportCompnent` become
the functions of a `Detectors` value.

Modules:

- `Annotations` (annotations.dfy): the markers, type and assembly records, and descriptors.
- `Conditions` (conditions.dfy): both `shouldSkip` overloads, as a loop with a
  per-call cache (`map`). The loop is proved against `Verdict` and two logs: the
  predicate types handed to `CreateInstance`, and the markers whose predicate was asked.
- `Lifecycle` (lifecycle.dfy): `DoBeforeBeanPostProcessor` / `DoAfterBeanPostProcessor`
  on a `ResolveRequestContext` object whose `instance` field the loop reassigns.
  The loop is proved against `Dispatch` and `Chain`.
- `Pipeline` (pipeline.dfy): the stages the installer records.
  - Phase, insertion mode and kind of each stage.
  - A `Registrar` object standing for `ConfigurePipeline(p => p.Use(...))`.
  - The body of the DependsOn stage.
- `Scanning` (scanning.dfy): the result of `getAllTypeDefs` as functions of the
  assembly list, plus what is proved about them: membership, order index, both
  collections, and independence of the assembly order.
- `AnnotationModule` (module.dfy): the `AutofacAnnotationModule` class.
  - Its six `Register*BeanPostProcessor` overloads and `RegisterDependsOn`.
  - `GetAllTypeDefs`, which fills an `EnumTypeAgg` object with nested loops.
- `ProxyUtil` (proxy_util.dfy): `IsAccessible` and its truth table.

## Model

| member | source | states |
|---|---|---|
| Conditions.StopIndex | src/AutofacAnnotationLoadTypes.cs:168-185 | the loop leaves at the first marker that is rejected, whose constructor throws or whose predicate says skip; no marker before it does any of these |
| Conditions.VerdictMeaning | src/AutofacAnnotationLoadTypes.cs:160-186 | no markers gives false; false iff no marker stops the loop; true iff some constructed predicate says skip and every marker before it lets the target through; otherwise the error comes from the first stopping marker: InvalidConditionType, naming the owner and the marker's type, iff that marker is rejected (null type or a type assignable to Conditional); otherwise ActivationFailed, carrying only the type whose constructor threw |
| Conditions.ShouldSkipMarkers | src/AutofacAnnotationLoadTypes.cs:163-185 | the loop with its cache returns Verdict, creates exactly the CreationLog types in order and asks exactly the EvaluationLog markers in order |
| Conditions.ShouldSkipType | src/AutofacAnnotationLoadTypes.cs:160-186 | class overload: the class-level markers reflection reports for the type (inherited ones included); an InvalidCastException names Namespace.Name |
| Conditions.ShouldSkipBeanMethod | src/AutofacAnnotationLoadTypes.cs:192-218 | method overload: the method's markers only; an InvalidCastException names Namespace.Name.Method |
| Conditions.CreationLogCovers | src/AutofacAnnotationLoadTypes.cs:170-180 | CreateInstance is called for exactly the predicate types of the markers that pass the guard |
| Conditions.CreationLogOnce | src/AutofacAnnotationLoadTypes.cs:166-180 | within one call a type is created twice only when its instance is not an ICondition (not cached, marker skipped) |
| Conditions.EvaluationLogOrdered | src/AutofacAnnotationLoadTypes.cs:168-185 | ShouldSkip is asked of exactly the markers that pass the guard and yield an ICondition, in strictly increasing marker order |
| Conditions.ShortCircuit | src/AutofacAnnotationLoadTypes.cs:163-185 | no markers: nothing created or asked; no predicate is created or asked for a marker after the one that stops the loop |
| Lifecycle.Dispatch | src/AutofacAnnotationLoadTypes.cs:128-154 | missing key, a value that is not a post-processor list, or an empty list leaves the instance unchanged; otherwise the hooks of the list applied in order |
| Lifecycle.ChainFirst | src/AutofacAnnotationLoadTypes.cs:135-136 | the first hook receives the original instance, the rest receive its output |
| Lifecycle.ChainAppend | src/AutofacAnnotationLoadTypes.cs:135-136 | running ps then qs is running ps + qs |
| Lifecycle.TwoDecorators | src/AutofacAnnotationLoadTypes.cs:128-136 | post-processors [P1, P2] that each wrap the instance give P2's wrapper around P1's |
| Lifecycle.DoBeanPostProcessor | src/AutofacAnnotationLoadTypes.cs:128-154 | the foreach reassigning context.Instance leaves Dispatch of the old instance |
| Lifecycle.RunPostProcessStage | src/AutofacAnnotationLoadTypes.cs:43-47 | a before/after stage runs next first, then dispatches on its result |
| Pipeline.PostProcessStages | src/AutofacAnnotationLoadTypes.cs:31-120 | at most one stage; none for a post-processor, and in the generic overloads none for types of the module's or Autofac's assembly; an Activation stage running the requested hook, placed at EndOfPhase iff it is an after-stage of a non-generic overload |
| Pipeline.BeforeAfterAgree | src/AutofacAnnotationLoadTypes.cs:31-120 | before- and after-overloads of one shape install under the same guards; before-stages are at StartOfPhase; after-stages are at StartOfPhase only in the generic overload |
| Pipeline.DependsOnStages | src/AutofacAnnotationLoadTypes.cs:226-243 | no stage iff DependsOn is null; else exactly one RegistrationPipelineStart stage, at EndOfPhase, for the component's own type and its depends-on list |
| Pipeline.Registrar.Use | src/AutofacAnnotationLoadTypes.cs:42-43 | p.Use appends one stage and keeps the earlier ones |
| Pipeline.RunDependsOnStage | src/AutofacAnnotationLoadTypes.cs:235-241 | every depends-on type is resolved for the owner, in list order, and next is called after them |
| Scanning.AssemblyAutoConfigurationsFound | src/AutofacAnnotationLoadTypes.cs:263-285 | one assembly: a TypeDef is produced iff the assembly is not dynamic and one of its non-abstract classes yields it |
| Scanning.AssemblyBeanDefinitionsFound | src/AutofacAnnotationLoadTypes.cs:263-305 | one assembly: a descriptor is produced iff the assembly is not dynamic and one of its non-abstract classes yields it as a component or through its Import |
| Scanning.AutoConfigurationsFound | src/AutofacAnnotationLoadTypes.cs:261-285 | a TypeDef is in the AutoConfiguration collection iff a non-abstract class of a non-dynamic assembly carries the marker and yields it |
| Scanning.BeanDefinitionsFound | src/AutofacAnnotationLoadTypes.cs:261-305 | a descriptor is in the Component collection iff a non-abstract class of a non-dynamic assembly is detected as it, or its Import expands to it |
| Scanning.AutoConfigurationOrder | src/AutofacAnnotationLoadTypes.cs:271-284 | every TypeDef comes from a scanned class with the marker, and its order index is the Order index if present, else the marker's |
| Scanning.BothCollections | src/AutofacAnnotationLoadTypes.cs:276-296 | a class with both an AutoConfiguration marker and a component marker lands in both collections |
| Scanning.ScanOrderIndependent | src/AutofacAnnotationLoadTypes.cs:261-307 | scanning the assemblies in any order yields the same multisets of descriptors |
| Scanning.ScanAsUnion | src/AutofacAnnotationLoadTypes.cs:261-307 | each collection, counted with multiplicity, is the sum of every assembly's own contribution, so any interleaving of the per-assembly appends ends with the same multiset |
| AnnotationModule.EnumTypeAgg.constructor | src/AutofacAnnotationLoadTypes.cs:260 | both collections start empty |
| AnnotationModule.AutofacAnnotationModule.RegisterBeforeBeanPostProcessorGeneric | src/AutofacAnnotationLoadTypes.cs:31-48 | appends exactly PostProcessStages for the generic builder, before hook |
| AnnotationModule.AutofacAnnotationModule.RegisterAfterBeanPostProcessorGeneric | src/AutofacAnnotationLoadTypes.cs:50-67 | appends exactly PostProcessStages for the generic builder, after hook (StartOfPhase) |
| AnnotationModule.AutofacAnnotationModule.RegisterBeforeBeanPostProcessorConcrete | src/AutofacAnnotationLoadTypes.cs:72-83 | appends exactly PostProcessStages for the concrete builder, before hook |
| AnnotationModule.AutofacAnnotationModule.RegisterBeforeBeanPostProcessorRegistration | src/AutofacAnnotationLoadTypes.cs:85-95 | appends exactly PostProcessStages for an IComponentRegistration, before hook |
| AnnotationModule.AutofacAnnotationModule.RegisterAfterBeanPostProcessorConcrete | src/AutofacAnnotationLoadTypes.cs:97-108 | appends exactly PostProcessStages for the concrete builder, after hook (EndOfPhase) |
| AnnotationModule.AutofacAnnotationModule.RegisterAfterBeanPostProcessorRegistration | src/AutofacAnnotationLoadTypes.cs:110-120 | appends exactly PostProcessStages for an IComponentRegistration, after hook (EndOfPhase) |
| AnnotationModule.AutofacAnnotationModule.RegisterDependsOn | src/AutofacAnnotationLoadTypes.cs:226-243 | appends exactly DependsOnStages |
| AnnotationModule.AutofacAnnotationModule.GetAllTypeDefs | src/AutofacAnnotationLoadTypes.cs:253-309 | ArgumentNull("_assemblyList") iff the list is null or empty; otherwise a fresh aggregate whose collections are ScanAutoConfigurations and ScanBeanDefinitions of the list |
| AnnotationModule.AutofacAnnotationModule.ScanAssembly | src/AutofacAnnotationLoadTypes.cs:261-307 | one non-dynamic assembly appends its contribution to each collection |
| AnnotationModule.AutofacAnnotationModule.ScanType | src/AutofacAnnotationLoadTypes.cs:271-305 | one scanned class appends its AutoConfiguration descriptor, then its component descriptor and its Import expansion |
| ProxyUtil.IsAccessible | src/Util/ProxyUtil.cs:7-14 | public or nested-public types are accessible; so are internal or protected-internal nested types and invisible top-level types; a nested type with none of these visibilities is not; the full truth table as an iff |

## Left out

- src/EmbeddedConfiguration.cs is not part of this model: it reads files, manifest resources and JSON configuration.
- `Parallel.ForEach` in getAllTypeDefs is scanned sequentially, in list order. Thread safety of the concurrent appends is not modelled; `ScanOrderIndependent` states that the multisets of descriptors do not depend on the order in which assemblies are scanned, and `ScanAsUnion` that each multiset is the sum of the per-assembly contributions, whatever the interleaving of appends.
- Reflection (`GetCustomAttributes`, `GetTypes`, `Activator.CreateInstance`, `IsAssignableFrom`) is replaced by the fields of `TypeInfo` and by the total functions of `ConditionEnv`. These functions are deterministic: two calls with the same type give the same outcome.
- `GetComponent(ComponentDetector)` and `doImportCompnent` are opaque functions in `Detectors`; their code is not part of this model. Import chaining, import de-duplication and import-cycle detection are therefore not modelled; the scan itself does none of them.
- An exception thrown by `GetTypes`, `GetComponent`, `doImportCompnent`, a post-processor hook, `ICondition.ShouldSkip` or `Autowired.Resolve` is not modelled. A failed resolve would leave the DependsOn stage before `next` is called, but `RunDependsOnStage` always ends with `CallNext`. The only exception `CreateInstance` can raise in the model is `ActivationFailed`, which passes through unchanged and does not name the owner.
- The Autofac pipeline (`ConfigurePipeline`, `Use`, `next`, `Autowired.Resolve`) is reduced to the list of recorded stages and to the order of events inside a stage. `p.Use(phase, callback)` in RegisterDependsOn is recorded with Autofac's default insertion mode, EndOfPhase.
- The predicate cache is local to one shouldSkip call, as in the code; no cache is shared between calls or threads.
- Conditions.ShouldSkipMarkers: the null/assignable guard is modelled as written. It rejects a predicate type that IS assignable to Conditional, although its message asks for an implementation of Condition.
- Pipeline.PostProcessStages: the generic after-overload inserts at StartOfPhase, but the other after-overloads insert at EndOfPhase. So the two builder shapes do not give identical after-stage placement, and the model follows the code.
- Lifecycle.Dispatch: the property-bag key is `nameof(List<BeanPostProcessor>)`, which C# evaluates to "List". Instances are values (`Obj`), so the aliasing of a mutable instance is not modelled.
