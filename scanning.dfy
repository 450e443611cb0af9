/** Type aggregation: what getAllTypeDefs collects from the loaded assemblies,
    stated as functions of the assembly list, and the properties of the result. */
module Scanning {
  import opened Annotations

  /** The two collaborators of the scan whose code is not part of this model:
      type.GetComponent(ComponentDetector), which finds a Component-like marker,
      and doImportCompnent, which expands an [Import] marker into descriptors. */
  datatype Detectors = Detectors(
    component: TypeInfo -> Option<ComponentMarker>,
    importComponents: (ImportMarker, TypeInfo) -> seq<BeanDefinition>)

  datatype ScanError = ArgumentNull(paramName: string)

  /** The concatenation of f(x) over xs, in order. */
  function FlatMap<A, B>(xs: seq<A>, f: A -> seq<B>): seq<B>
  {
    if xs == [] then [] else FlatMap(xs[..|xs| - 1], f) + f(xs[|xs| - 1])
  }

  /** The contributions f(x) over xs pooled together, counted with multiplicity. */
  function BagUnion<A, B>(xs: seq<A>, f: A -> seq<B>): multiset<B>
  {
    if xs == [] then multiset{} else BagUnion(xs[..|xs| - 1], f) + multiset(f(xs[|xs| - 1]))
  }

  /** The types the scan looks at: classes that are not abstract. */
  predicate Scanned(t: TypeInfo)
  {
    t.isClass && !t.isAbstract
  }

  /** Order index of a descriptor: an explicit [Order] marker wins over the order
      value the marker itself carries. */
  function OrderIndex(t: TypeInfo, markerIndex: int): int
  {
    match t.order
    case Some(o) => o.index
    case None => markerIndex
  }

  function TypeAutoConfigurations(t: TypeInfo): seq<TypeDef>
  {
    if Scanned(t) && t.autoConfiguration.Some?
    then [TypeDef(t, t.autoConfiguration.value, OrderIndex(t, t.autoConfiguration.value.orderIndex))]
    else []
  }

  function TypeComponents(d: Detectors, t: TypeInfo): seq<BeanDefinition>
  {
    match d.component(t)
    case Some(c) => [BeanDefinition(t, c, OrderIndex(t, c.orderIndex))]
    case None => []
  }

  function TypeImports(d: Detectors, t: TypeInfo): seq<BeanDefinition>
  {
    match t.importMarker
    case Some(im) => d.importComponents(im, t)
    case None => []
  }

  /** A scanned type's contribution to the Component collection: its own
      descriptor, then the descriptors its [Import] expands to. */
  function TypeBeanDefinitions(d: Detectors, t: TypeInfo): seq<BeanDefinition>
  {
    if Scanned(t) then TypeComponents(d, t) + TypeImports(d, t) else []
  }

  /** The AutoConfiguration descriptors of a list of types, in list order. */
  function TypesAutoConfigurations(types: seq<TypeInfo>): seq<TypeDef>
  {
    FlatMap(types, TypeAutoConfigurations)
  }

  /** The Component descriptors of a list of types, in list order. */
  function TypesBeanDefinitions(d: Detectors, types: seq<TypeInfo>): seq<BeanDefinition>
  {
    FlatMap(types, t => TypeBeanDefinitions(d, t))
  }

  function AssemblyAutoConfigurations(a: Assembly): seq<TypeDef>
  {
    if a.isDynamic then [] else TypesAutoConfigurations(a.types)
  }

  function AssemblyBeanDefinitions(d: Detectors, a: Assembly): seq<BeanDefinition>
  {
    if a.isDynamic then [] else TypesBeanDefinitions(d, a.types)
  }

  /** The AutoConfiguration collection after scanning the assemblies in list order. */
  function ScanAutoConfigurations(assemblies: seq<Assembly>): seq<TypeDef>
  {
    FlatMap(assemblies, AssemblyAutoConfigurations)
  }

  /** The Component collection after scanning the assemblies in list order. */
  function ScanBeanDefinitions(d: Detectors, assemblies: seq<Assembly>): seq<BeanDefinition>
  {
    FlatMap(assemblies, a => AssemblyBeanDefinitions(d, a))
  }

  lemma {:induction false} FlatMapAppend<A, B>(xs: seq<A>, ys: seq<A>, f: A -> seq<B>)
    ensures FlatMap(xs + ys, f) == FlatMap(xs, f) + FlatMap(ys, f)
  {
    if ys == [] {
      assert xs + ys == xs;
    } else {
      FlatMapAppend(xs, ys[..|ys| - 1], f);
      assert (xs + ys)[..|xs + ys| - 1] == xs + ys[..|ys| - 1];
      assert (xs + ys)[|xs + ys| - 1] == ys[|ys| - 1];
    }
  }

  lemma {:induction false} FlatMapMember<A, B>(xs: seq<A>, f: A -> seq<B>, y: B)
    ensures y in FlatMap(xs, f) <==> exists i :: 0 <= i < |xs| && y in f(xs[i])
  {
    if xs != [] {
      var init := xs[..|xs| - 1];
      FlatMapMember(init, f, y);
      if y in FlatMap(xs, f) && y !in f(xs[|xs| - 1]) {
        var i :| 0 <= i < |init| && y in f(init[i]);
        assert xs[i] == init[i];
      }
      if exists i :: 0 <= i < |xs| && y in f(xs[i]) {
        var i :| 0 <= i < |xs| && y in f(xs[i]);
        if i < |init| {
          assert init[i] == xs[i];
        }
      }
    }
  }

  lemma FlatMapSingle<A, B>(x: A, f: A -> seq<B>)
    ensures FlatMap([x], f) == f(x)
  {
    assert [x][..0] == [];
  }

  /** Taking out the element at k takes its contribution out of the result. */
  lemma {:induction false} FlatMapRemove<A, B>(ys: seq<A>, k: nat, f: A -> seq<B>)
    requires k < |ys|
    ensures multiset(FlatMap(ys, f)) == multiset(FlatMap(ys[..k] + ys[k + 1..], f)) + multiset(f(ys[k]))
  {
    var pre, mid, post := ys[..k], [ys[k]], ys[k + 1..];
    assert ys == pre + (mid + post);
    FlatMapAppend(pre, mid + post, f);
    FlatMapAppend(mid, post, f);
    FlatMapAppend(pre, post, f);
    FlatMapSingle(ys[k], f);
    var fp, fm, fq := FlatMap(pre, f), FlatMap(mid, f), FlatMap(post, f);
    assert multiset(fp + (fm + fq)) == multiset(fp + fq) + multiset(fm);
  }

  /** The result, as a multiset, does not depend on the order of the list: any
      permutation of the list yields the same elements. */
  lemma {:induction false} FlatMapPermutation<A, B>(xs: seq<A>, ys: seq<A>, f: A -> seq<B>)
    requires multiset(xs) == multiset(ys)
    ensures multiset(FlatMap(xs, f)) == multiset(FlatMap(ys, f))
    decreases |xs|
  {
    if xs != [] {
      var init, last := xs[..|xs| - 1], xs[|xs| - 1];
      assert xs == init + [last];
      assert last in multiset(ys);
      var k :| 0 <= k < |ys| && ys[k] == last;
      var rest := ys[..k] + ys[k + 1..];
      assert ys == ys[..k] + [last] + ys[k + 1..];
      assert multiset(init) == multiset(xs) - multiset{last};
      assert multiset(rest) == multiset(ys) - multiset{last};
      FlatMapPermutation(init, rest, f);
      FlatMapRemove(ys, k, f);
    }
  }

  /** One more assembly appends its own contribution. */
  lemma ScanStep(d: Detectors, assemblies: seq<Assembly>, i: nat)
    requires i < |assemblies|
    ensures ScanAutoConfigurations(assemblies[..i + 1]) ==
      ScanAutoConfigurations(assemblies[..i]) + AssemblyAutoConfigurations(assemblies[i])
    ensures ScanBeanDefinitions(d, assemblies[..i + 1]) ==
      ScanBeanDefinitions(d, assemblies[..i]) + AssemblyBeanDefinitions(d, assemblies[i])
  {
    assert assemblies[..i + 1][..i] == assemblies[..i];
  }

  /** One more type appends its own contribution. */
  lemma TypeStep(d: Detectors, types: seq<TypeInfo>, j: nat)
    requires j < |types|
    ensures TypesAutoConfigurations(types[..j + 1]) ==
      TypesAutoConfigurations(types[..j]) + TypeAutoConfigurations(types[j])
    ensures TypesBeanDefinitions(d, types[..j + 1]) ==
      TypesBeanDefinitions(d, types[..j]) + TypeBeanDefinitions(d, types[j])
  {
    assert types[..j + 1][..j] == types[..j];
  }

  /** The AutoConfiguration descriptor a type yields: a scanned type carrying
      the marker, with its order index taken from an explicit [Order] marker if
      there is one and from the AutoConfiguration marker otherwise. */
  predicate YieldsAutoConfiguration(t: TypeInfo, def: TypeDef)
  {
    Scanned(t) && t.autoConfiguration == Some(def.bean) && def.typeInfo == t &&
    def.orderIndex == OrderIndex(t, def.bean.orderIndex)
  }

  /** A Component descriptor a type yields: a scanned type that is detected as a
      component (same order rule), or one of the descriptors its [Import] expands to. */
  predicate YieldsBeanDefinition(d: Detectors, t: TypeInfo, def: BeanDefinition)
  {
    Scanned(t) &&
    ((d.component(t) == Some(def.bean) && def.typeInfo == t && def.orderIndex == OrderIndex(t, def.bean.orderIndex)) ||
     (t.importMarker.Some? && def in d.importComponents(t.importMarker.value, t)))
  }

  lemma AssemblyAutoConfigurationsFound(a: Assembly, def: TypeDef)
    ensures def in AssemblyAutoConfigurations(a) <==>
      !a.isDynamic && exists t :: t in a.types && YieldsAutoConfiguration(t, def)
  {
    FlatMapMember(a.types, TypeAutoConfigurations, def);
    if def in AssemblyAutoConfigurations(a) {
      var j :| 0 <= j < |a.types| && def in TypeAutoConfigurations(a.types[j]);
      assert YieldsAutoConfiguration(a.types[j], def);
    }
    if !a.isDynamic && exists t :: t in a.types && YieldsAutoConfiguration(t, def) {
      var t :| t in a.types && YieldsAutoConfiguration(t, def);
      var j :| 0 <= j < |a.types| && a.types[j] == t;
      assert def in TypeAutoConfigurations(a.types[j]);
    }
  }

  lemma AssemblyBeanDefinitionsFound(d: Detectors, a: Assembly, def: BeanDefinition)
    ensures def in AssemblyBeanDefinitions(d, a) <==>
      !a.isDynamic && exists t :: t in a.types && YieldsBeanDefinition(d, t, def)
  {
    var g := t => TypeBeanDefinitions(d, t);
    assert TypesBeanDefinitions(d, a.types) == FlatMap(a.types, g);
    FlatMapMember(a.types, g, def);
    if def in AssemblyBeanDefinitions(d, a) {
      var j :| 0 <= j < |a.types| && def in g(a.types[j]);
      var t := a.types[j];
      assert def in TypeComponents(d, t) || def in TypeImports(d, t);
      assert YieldsBeanDefinition(d, t, def);
    }
    if !a.isDynamic && exists t :: t in a.types && YieldsBeanDefinition(d, t, def) {
      var t :| t in a.types && YieldsBeanDefinition(d, t, def);
      var j :| 0 <= j < |a.types| && a.types[j] == t;
      assert def in g(a.types[j]);
    }
  }

  /** An AutoConfiguration descriptor is in the result exactly when some scanned
      type of a non-dynamic assembly yields it. */
  lemma AutoConfigurationsFound(assemblies: seq<Assembly>, def: TypeDef)
    ensures def in ScanAutoConfigurations(assemblies) <==>
      exists a, t :: a in assemblies && !a.isDynamic && t in a.types && YieldsAutoConfiguration(t, def)
  {
    FlatMapMember(assemblies, AssemblyAutoConfigurations, def);
    forall a | a in assemblies {
      AssemblyAutoConfigurationsFound(a, def);
    }
    if exists a, t :: a in assemblies && !a.isDynamic && t in a.types && YieldsAutoConfiguration(t, def) {
      var a, t :| a in assemblies && !a.isDynamic && t in a.types && YieldsAutoConfiguration(t, def);
      var i :| 0 <= i < |assemblies| && assemblies[i] == a;
      assert def in AssemblyAutoConfigurations(assemblies[i]);
    }
  }

  /** A Component descriptor is in the result exactly when some scanned type of
      a non-dynamic assembly yields it. */
  lemma BeanDefinitionsFound(d: Detectors, assemblies: seq<Assembly>, def: BeanDefinition)
    ensures def in ScanBeanDefinitions(d, assemblies) <==>
      exists a, t :: a in assemblies && !a.isDynamic && t in a.types && YieldsBeanDefinition(d, t, def)
  {
    var f := a => AssemblyBeanDefinitions(d, a);
    FlatMapMember(assemblies, f, def);
    forall a | a in assemblies {
      AssemblyBeanDefinitionsFound(d, a, def);
    }
    if exists a, t :: a in assemblies && !a.isDynamic && t in a.types && YieldsBeanDefinition(d, t, def) {
      var a, t :| a in assemblies && !a.isDynamic && t in a.types && YieldsBeanDefinition(d, t, def);
      var i :| 0 <= i < |assemblies| && assemblies[i] == a;
      assert def in f(assemblies[i]);
    }
  }

  /** Every AutoConfiguration descriptor comes from a scanned class carrying the
      marker, and its order index is the explicit [Order] index when the class
      has one and the marker's own order value otherwise. */
  lemma AutoConfigurationOrder(assemblies: seq<Assembly>, def: TypeDef)
    requires def in ScanAutoConfigurations(assemblies)
    ensures Scanned(def.typeInfo) && def.typeInfo.autoConfiguration == Some(def.bean)
    ensures def.orderIndex ==
      if def.typeInfo.order.Some? then def.typeInfo.order.value.index else def.bean.orderIndex
  {
    AutoConfigurationsFound(assemblies, def);
  }

  /** A scanned type carrying both an AutoConfiguration marker and a
      Component-like marker contributes a descriptor to each collection. */
  lemma BothCollections(d: Detectors, assemblies: seq<Assembly>, a: Assembly, t: TypeInfo, c: ComponentMarker)
    requires a in assemblies && !a.isDynamic && t in a.types && Scanned(t)
    requires t.autoConfiguration.Some? && d.component(t) == Some(c)
    ensures TypeDef(t, t.autoConfiguration.value, OrderIndex(t, t.autoConfiguration.value.orderIndex))
      in ScanAutoConfigurations(assemblies)
    ensures BeanDefinition(t, c, OrderIndex(t, c.orderIndex)) in ScanBeanDefinitions(d, assemblies)
  {
    var config := TypeDef(t, t.autoConfiguration.value, OrderIndex(t, t.autoConfiguration.value.orderIndex));
    var component := BeanDefinition(t, c, OrderIndex(t, c.orderIndex));
    AutoConfigurationsFound(assemblies, config);
    BeanDefinitionsFound(d, assemblies, component);
    assert YieldsAutoConfiguration(t, config) && YieldsBeanDefinition(d, t, component);
  }

  /** Scanning the assemblies in any order (as the parallel scan may) yields the
      same descriptors in both collections, counted with multiplicity. */
  lemma ScanOrderIndependent(d: Detectors, assemblies: seq<Assembly>, reordered: seq<Assembly>)
    requires multiset(assemblies) == multiset(reordered)
    ensures multiset(ScanAutoConfigurations(assemblies)) == multiset(ScanAutoConfigurations(reordered))
    ensures multiset(ScanBeanDefinitions(d, assemblies)) == multiset(ScanBeanDefinitions(d, reordered))
  {
    FlatMapPermutation(assemblies, reordered, AssemblyAutoConfigurations);
    FlatMapPermutation(assemblies, reordered, a => AssemblyBeanDefinitions(d, a));
  }

  lemma {:induction false} FlatMapBag<A, B>(xs: seq<A>, f: A -> seq<B>)
    ensures multiset(FlatMap(xs, f)) == BagUnion(xs, f)
  {
    if xs != [] {
      FlatMapBag(xs[..|xs| - 1], f);
    }
  }

  /** Each collection holds, counted with multiplicity, the sum of what every
      assembly contributes on its own: whichever way the parallel scan
      interleaves the appends of different assemblies, this is what it ends with. */
  lemma ScanAsUnion(d: Detectors, assemblies: seq<Assembly>)
    ensures multiset(ScanAutoConfigurations(assemblies)) == BagUnion(assemblies, AssemblyAutoConfigurations)
    ensures multiset(ScanBeanDefinitions(d, assemblies)) == BagUnion(assemblies, a => AssemblyBeanDefinitions(d, a))
  {
    FlatMapBag(assemblies, AssemblyAutoConfigurations);
    FlatMapBag(assemblies, a => AssemblyBeanDefinitions(d, a));
  }
}
