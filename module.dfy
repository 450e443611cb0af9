/** The module class itself: the overloads that install the post-processor and
    depends-on middleware on a registration, and the assembly scan that
    aggregates the descriptors of the annotated types. */
module AnnotationModule {
  import opened Annotations
  import Lifecycle
  import opened Pipeline
  import opened Scanning

  /** The two collections getAllTypeDefs fills. */
  class EnumTypeAgg {
    var autoConfigurationDefs: seq<TypeDef>
    var beanDefinitionDefs: seq<BeanDefinition>

    constructor ()
      ensures autoConfigurationDefs == [] && beanDefinitionDefs == []
    {
      autoConfigurationDefs := [];
      beanDefinitionDefs := [];
    }
  }

  class AutofacAnnotationModule {
    /** GetType().Assembly: the assembly of the module itself. */
    const selfAssembly: AssemblyId
    /** typeof(LifetimeScope).Assembly: Autofac's own assembly. */
    const autofacAssembly: AssemblyId
    /** _assemblyList, which may be null. */
    const assemblyList: Option<seq<Assembly>>
    const detectors: Detectors

    constructor (selfAssembly: AssemblyId, autofacAssembly: AssemblyId, assemblyList: Option<seq<Assembly>>, detectors: Detectors)
      ensures this.selfAssembly == selfAssembly && this.autofacAssembly == autofacAssembly
      ensures this.assemblyList == assemblyList && this.detectors == detectors
    {
      this.selfAssembly := selfAssembly;
      this.autofacAssembly := autofacAssembly;
      this.assemblyList := assemblyList;
      this.detectors := detectors;
    }

    /** RegisterBeforeBeanPostProcessor<TReflectionActivatorData>. */
    method RegisterBeforeBeanPostProcessorGeneric(component: ComponentModel, registrar: Registrar)
      modifies registrar
      ensures registrar.stages == old(registrar.stages) +
        PostProcessStages(selfAssembly, autofacAssembly, GenericBuilder, Lifecycle.BeforeInitialization, component)
    {
      if component.currentType.assembly == selfAssembly || component.currentType.assembly == autofacAssembly {
        return;
      }
      if component.isBeanPostProcessor {
        return;
      }
      registrar.Use(Activation, StartOfPhase, PostProcess(Lifecycle.BeforeInitialization));
    }

    /** RegisterAfterBeanPostProcessor<TReflectionActivatorData>: placed at the
        start of the Activation phase, like the before-stage. */
    method RegisterAfterBeanPostProcessorGeneric(component: ComponentModel, registrar: Registrar)
      modifies registrar
      ensures registrar.stages == old(registrar.stages) +
        PostProcessStages(selfAssembly, autofacAssembly, GenericBuilder, Lifecycle.AfterInitialization, component)
    {
      if component.currentType.assembly == selfAssembly || component.currentType.assembly == autofacAssembly {
        return;
      }
      if component.isBeanPostProcessor {
        return;
      }
      registrar.Use(Activation, StartOfPhase, PostProcess(Lifecycle.AfterInitialization));
    }

    /** RegisterBeforeBeanPostProcessor on a concrete single registration. */
    method RegisterBeforeBeanPostProcessorConcrete(component: ComponentModel, registrar: Registrar)
      modifies registrar
      ensures registrar.stages == old(registrar.stages) +
        PostProcessStages(selfAssembly, autofacAssembly, ConcreteBuilder, Lifecycle.BeforeInitialization, component)
    {
      if component.isBeanPostProcessor {
        return;
      }
      registrar.Use(Activation, StartOfPhase, PostProcess(Lifecycle.BeforeInitialization));
    }

    /** RegisterBeforeBeanPostProcessor on an IComponentRegistration. */
    method RegisterBeforeBeanPostProcessorRegistration(component: ComponentModel, registrar: Registrar)
      modifies registrar
      ensures registrar.stages == old(registrar.stages) +
        PostProcessStages(selfAssembly, autofacAssembly, ComponentRegistration, Lifecycle.BeforeInitialization, component)
    {
      if component.isBeanPostProcessor {
        return;
      }
      registrar.Use(Activation, StartOfPhase, PostProcess(Lifecycle.BeforeInitialization));
    }

    /** RegisterAfterBeanPostProcessor on a concrete single registration. */
    method RegisterAfterBeanPostProcessorConcrete(component: ComponentModel, registrar: Registrar)
      modifies registrar
      ensures registrar.stages == old(registrar.stages) +
        PostProcessStages(selfAssembly, autofacAssembly, ConcreteBuilder, Lifecycle.AfterInitialization, component)
    {
      if component.isBeanPostProcessor {
        return;
      }
      registrar.Use(Activation, EndOfPhase, PostProcess(Lifecycle.AfterInitialization));
    }

    /** RegisterAfterBeanPostProcessor on an IComponentRegistration. */
    method RegisterAfterBeanPostProcessorRegistration(component: ComponentModel, registrar: Registrar)
      modifies registrar
      ensures registrar.stages == old(registrar.stages) +
        PostProcessStages(selfAssembly, autofacAssembly, ComponentRegistration, Lifecycle.AfterInitialization, component)
    {
      if component.isBeanPostProcessor {
        return;
      }
      registrar.Use(Activation, EndOfPhase, PostProcess(Lifecycle.AfterInitialization));
    }

    /** RegisterDependsOn<TReflectionActivatorData>. */
    method RegisterDependsOn(component: ComponentModel, registrar: Registrar)
      modifies registrar
      ensures registrar.stages == old(registrar.stages) + DependsOnStages(component)
    {
      if component.dependsOn.None? {
        return;
      }
      registrar.Use(RegistrationPipelineStart, EndOfPhase,
                    ResolveDependsOn(component.currentType.id, component.dependsOn.value));
    }

    /** getAllTypeDefs: a null or empty assembly list is an ArgumentNullException;
        otherwise every non-dynamic assembly is scanned, in list order, and the
        result holds exactly the descriptors the scanning functions describe. */
    method GetAllTypeDefs() returns (r: Result<EnumTypeAgg, ScanError>)
      ensures r.Failure? <==> assemblyList.None? || |assemblyList.value| < 1
      ensures r.Failure? ==> r.error == ArgumentNull("_assemblyList")
      ensures r.Success? ==>
        (fresh(r.value) &&
         r.value.autoConfigurationDefs == ScanAutoConfigurations(assemblyList.value) &&
         r.value.beanDefinitionDefs == ScanBeanDefinitions(detectors, assemblyList.value))
    {
      if assemblyList.None? || |assemblyList.value| < 1 {
        return Failure(ArgumentNull("_assemblyList"));
      }
      var assemblies := assemblyList.value;
      var enumTypeAgg := new EnumTypeAgg();
      for i := 0 to |assemblies|
        invariant enumTypeAgg.autoConfigurationDefs == ScanAutoConfigurations(assemblies[..i])
        invariant enumTypeAgg.beanDefinitionDefs == ScanBeanDefinitions(detectors, assemblies[..i])
      {
        ScanStep(detectors, assemblies, i);
        if !assemblies[i].isDynamic {
          ScanAssembly(enumTypeAgg, assemblies[i]);
        }
      }
      assert assemblies[..|assemblies|] == assemblies;
      return Success(enumTypeAgg);
    }

    /** The body run for each non-dynamic assembly: every class that is not
        abstract contributes its descriptors, in the order GetTypes lists them. */
    method ScanAssembly(enumTypeAgg: EnumTypeAgg, assembly: Assembly)
      requires !assembly.isDynamic
      modifies enumTypeAgg
      ensures enumTypeAgg.autoConfigurationDefs ==
        old(enumTypeAgg.autoConfigurationDefs) + AssemblyAutoConfigurations(assembly)
      ensures enumTypeAgg.beanDefinitionDefs ==
        old(enumTypeAgg.beanDefinitionDefs) + AssemblyBeanDefinitions(detectors, assembly)
    {
      var types := assembly.types;
      for j := 0 to |types|
        invariant enumTypeAgg.autoConfigurationDefs ==
          old(enumTypeAgg.autoConfigurationDefs) + TypesAutoConfigurations(types[..j])
        invariant enumTypeAgg.beanDefinitionDefs ==
          old(enumTypeAgg.beanDefinitionDefs) + TypesBeanDefinitions(detectors, types[..j])
      {
        TypeStep(detectors, types, j);
        var ty := types[j];
        if !ty.isClass || ty.isAbstract {
          continue;
        }
        ScanType(enumTypeAgg, ty);
      }
      assert types[..|types|] == types;
    }

    /** One scanned type: its AutoConfiguration descriptor, its Component
        descriptor, then the descriptors its [Import] marker expands to. */
    method ScanType(enumTypeAgg: EnumTypeAgg, ty: TypeInfo)
      requires Scanned(ty)
      modifies enumTypeAgg
      ensures enumTypeAgg.autoConfigurationDefs ==
        old(enumTypeAgg.autoConfigurationDefs) + TypeAutoConfigurations(ty)
      ensures enumTypeAgg.beanDefinitionDefs ==
        old(enumTypeAgg.beanDefinitionDefs) + TypeBeanDefinitions(detectors, ty)
    {
      var orderAttr := ty.order;
      var configBean := ty.autoConfiguration;
      if configBean.Some? {
        var index := if orderAttr.Some? then orderAttr.value.index else configBean.value.orderIndex;
        enumTypeAgg.autoConfigurationDefs := enumTypeAgg.autoConfigurationDefs + [TypeDef(ty, configBean.value, index)];
      }
      var componentAttr := detectors.component(ty);
      if componentAttr.Some? {
        var index := if orderAttr.Some? then orderAttr.value.index else componentAttr.value.orderIndex;
        enumTypeAgg.beanDefinitionDefs := enumTypeAgg.beanDefinitionDefs + [BeanDefinition(ty, componentAttr.value, index)];
      }
      var importBean := ty.importMarker;
      if importBean.Some? {
        var beanDefinitions := detectors.importComponents(importBean.value, ty);
        enumTypeAgg.beanDefinitionDefs := enumTypeAgg.beanDefinitionDefs + beanDefinitions;
      }
    }
  }
}
