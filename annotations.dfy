/** The annotation model: plain-data stand-ins for the reflected types, methods and
    markers that the discovery engine inspects. Reflection (GetCustomAttributes,
    GetTypes, Assembly identity) is replaced by the fields of these records. */
module Annotations {

  datatype Option<+T> = None | Some(value: T)

  datatype Result<+R, +E> = Success(value: R) | Failure(error: E)

  /** Identity of a reflected type (System.Type). */
  type TypeId = nat

  /** Identity of a loaded assembly. */
  type AssemblyId = nat

  /** A [Conditional] marker: the predicate type it names (null allowed) and its own
      marker-specific parameters. */
  datatype ConditionalMarker = ConditionalMarker(predicateType: Option<TypeId>, arguments: seq<int>)

  /** An explicit [Order] marker. */
  datatype OrderMarker = OrderMarker(index: int)

  /** An [AutoConfiguration] marker with its own default order value. */
  datatype AutoConfigurationMarker = AutoConfigurationMarker(orderIndex: int)

  /** A Component-like marker as returned by the component detector. */
  datatype ComponentMarker = ComponentMarker(orderIndex: int, serviceName: string)

  /** An [Import] marker naming the configuration types to pull in. */
  datatype ImportMarker = ImportMarker(imported: seq<TypeId>)

  /** The part of System.Type that discovery reads. */
  datatype TypeInfo = TypeInfo(
    id: TypeId,
    namespace: string,
    name: string,
    assembly: AssemblyId,
    isClass: bool,
    isAbstract: bool,
    order: Option<OrderMarker>,
    autoConfiguration: Option<AutoConfigurationMarker>,
    importMarker: Option<ImportMarker>,
    conditionals: seq<ConditionalMarker>)   // as GetCustomAttributes<Conditional>() reports them, inherited ones included

  /** A factory ([Bean]) method of an AutoConfiguration class. */
  datatype BeanMethod = BeanMethod(name: string, conditionals: seq<ConditionalMarker>)

  /** A loaded assembly: whether it was emitted at run time and the types it defines. */
  datatype Assembly = Assembly(id: AssemblyId, isDynamic: bool, types: seq<TypeInfo>)

  /** Descriptor of an AutoConfiguration class (TypeDef<AutoConfiguration>). */
  datatype TypeDef = TypeDef(typeInfo: TypeInfo, bean: AutoConfigurationMarker, orderIndex: int)

  /** Descriptor of a component (BeanDefination). */
  datatype BeanDefinition = BeanDefinition(typeInfo: TypeInfo, bean: ComponentMarker, orderIndex: int)

  /** The finalized component model that the pipeline installer receives. */
  datatype ComponentModel = ComponentModel(
    currentType: TypeInfo,
    isBeanPostProcessor: bool,
    dependsOn: Option<seq<TypeId>>)
}
