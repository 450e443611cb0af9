/** The visibility test used before a proxy is generated for a type. */
module ProxyUtil {

  /** The System.Type visibility flags the test reads. */
  datatype TypeFlags = TypeFlags(
    isPublic: bool,
    isNestedPublic: bool,
    isNested: bool,
    isNestedAssembly: bool,      // internal nested type
    isNestedFamORAssem: bool,    // protected internal nested type
    isVisible: bool)

  function Bit(b: bool): bv1
  {
    if b then 1 else 0
  }

  /** IsAccessible, as the source computes it: an early return on a public or
      nested-public type, then a bitwise or of two 0/1 flags. */
  function IsAccessible(t: TypeFlags): (r: bool)
    // a public type, or a nested-public type, is accessible
    ensures t.isPublic || t.isNestedPublic ==> r
    // an internal or protected internal nested type is accessible
    ensures t.isNested && (t.isNestedAssembly || t.isNestedFamORAssem) ==> r
    // a top-level type that is not visible is accessible
    ensures !t.isVisible && !t.isNested ==> r
    // a nested type with none of the accessible nested visibilities is not
    ensures t.isNested && !t.isPublic && !t.isNestedPublic && !t.isNestedAssembly && !t.isNestedFamORAssem ==> !r
    // a top-level type that is visible but not public is not
    ensures !t.isNested && t.isVisible && !t.isPublic && !t.isNestedPublic ==> !r
    // with the flags the runtime reports for a top-level type (visible exactly
    // when public), every top-level type passes
    ensures !t.isNested && t.isVisible == t.isPublic ==> r
    // the whole truth table
    ensures r <==>
      t.isPublic || t.isNestedPublic ||
      (t.isNested && (t.isNestedAssembly || t.isNestedFamORAssem)) ||
      (!t.isVisible && !t.isNested)
  {
    if (if t.isPublic then 1 else if t.isNestedPublic then 1 else 0) != 0 then true
    else
      var isNested := t.isNested;
      var flag := isNested && (t.isNestedAssembly || t.isNestedFamORAssem);
      ((if t.isVisible then 0 else Bit(!isNested)) | Bit(flag)) != 0
  }

}
