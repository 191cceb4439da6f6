/**
 The rule engine: the checks run on one @Configuration class, in the order the
 processor runs them. Each check appends diagnostics to the output; a
 diagnostic names the message constant and the element it is reported on.
 */
module Validation {
  import opened Messages
  import opened Elements

  /** The annotation types the processor looks up by qualified name when it starts. */
  const ConfigurationType: Annotation := "org.springframework.context.annotation.Configuration"
  const BeanType: Annotation := "org.springframework.context.annotation.Bean"
  const AutowiredType: Annotation := "org.springframework.beans.factory.annotation.Autowired"

  /** The three annotation types are different types (their names already differ in length). */
  lemma AnnotationTypesDistinct()
    ensures ConfigurationType != BeanType && ConfigurationType != AutowiredType && BeanType != AutowiredType
  {
    assert |ConfigurationType| == 52 && |BeanType| == 43 && |AutowiredType| == 54;
  }

  /**
   The element a diagnostic is reported on: the class itself, one annotation
   mirror of one of its constructors, or one of its methods. Constructor and
   method indices count positions among the class's constructors and among
   its methods, in declaration order.
   */
  datatype Target =
    | OnClass(className: string)
    | OnConstructor(className: string, ctorIndex: nat, mirrorIndex: nat)
    | OnMethod(className: string, methodIndex: nat)

  /** One message printed to the compiler's messager. */
  datatype Diagnostic = Diagnostic(message: Message, target: Target) {
    /** The severity the diagnostic is printed with. */
    function Severity(): Kind { KindOf(message) }
    /** The text the diagnostic is printed with. */
    function Text(): string { TextOf(message) }
  }

  // ---------------------------------------------------------------------------
  // The element predicates the checks are built from

  /** A class is nested when it is enclosed by a class (not by an interface, an enum, a method, ...). */
  predicate IsNestedClass(cls: ClassDecl) {
    cls.enclosingKind == Class
  }

  /** Package-private, protected and public constructors are all visible. */
  predicate IsVisible(ctor: ConstructorDecl) {
    Private !in ctor.modifiers
  }

  predicate HasNoParameter(ctor: ConstructorDecl) {
    ctor.parameterCount == 0
  }

  /** Some constructor at position k or later is visible and takes no parameter. */
  predicate HasVisibleNoArgFrom(ctors: seq<ConstructorDecl>, k: nat) {
    exists i :: k <= i < |ctors| && IsVisible(ctors[i]) && HasNoParameter(ctors[i])
  }

  predicate HasVisibleNoArgConstructor(ctors: seq<ConstructorDecl>) {
    HasVisibleNoArgFrom(ctors, 0)
  }

  /** Mirror j of constructor i exists and is an @Autowired mirror. */
  predicate IsAutowiredMirror(ctors: seq<ConstructorDecl>, i: nat, j: nat) {
    i < |ctors| && j < |ctors[i].annotations| && ctors[i].annotations[j] == AutowiredType
  }

  /** A method takes part in the checks when one of its mirrors is @Bean. */
  predicate IsBeanMethod(m: MethodDecl) {
    |m.annotations| > 0 && BeanType in m.annotations
  }

  /**
   The rule table for @Bean methods: the method-level messages, each with the
   condition under which a @Bean method violates it.
   */
  predicate ViolatesBeanRule(m: MethodDecl, msg: Message) {
    match msg
    case BeanMethodPrivate => Private in m.modifiers
    case BeanMethodFinal => Final in m.modifiers
    case BeanMethodReturnsVoid => m.returnsVoid
    case StaticBeanMethod => Static in m.modifiers && !m.returnAssignableToBfpp
    case BfppBeanMethodNotStatic => Static !in m.modifiers && m.returnAssignableToBfpp
    case _ => false
  }

  // ---------------------------------------------------------------------------
  // Class checks

  /** processClassVisibility: a final class is an error. */
  function FinalClassCheck(cls: ClassDecl): (r: seq<Diagnostic>)
    ensures forall d :: d in r <==> d == Diagnostic(ClassFinal, OnClass(cls.name)) && Final in cls.modifiers
  {
    if Final in cls.modifiers then [Diagnostic(ClassFinal, OnClass(cls.name))] else []
  }

  /** processStaticClass: a nested class that is not static is an error. */
  function StaticClassCheck(cls: ClassDecl): (r: seq<Diagnostic>)
    ensures forall d :: d in r <==>
      d == Diagnostic(NestedClassNotStatic, OnClass(cls.name)) && IsNestedClass(cls) && Static !in cls.modifiers
  {
    if IsNestedClass(cls) && Static !in cls.modifiers then
      [Diagnostic(NestedClassNotStatic, OnClass(cls.name))]
    else []
  }

  /**
   processAutowiredConstructor, from mirror j of constructor k on: one error
   per @Autowired mirror, reported on that mirror.
   */
  function AutowiredChecks(className: string, ctors: seq<ConstructorDecl>, k: nat, j: nat): (r: seq<Diagnostic>)
    requires k < |ctors| && j <= |ctors[k].annotations|
    ensures forall d :: d in r <==>
      && d.message == AutowiredConstructor
      && d.target.OnConstructor?
      && d.target.className == className
      && d.target.ctorIndex == k
      && j <= d.target.mirrorIndex
      && IsAutowiredMirror(ctors, k, d.target.mirrorIndex)
    decreases |ctors[k].annotations| - j
  {
    if j == |ctors[k].annotations| then []
    else
      (if ctors[k].annotations[j] == AutowiredType
       then [Diagnostic(AutowiredConstructor, OnConstructor(className, k, j))]
       else [])
      + AutowiredChecks(className, ctors, k, j + 1)
  }

  /**
   processConstructors, from constructor k on, with `found` recording whether
   an earlier constructor was visible and parameterless: every constructor's
   @Autowired errors in constructor order, then at most one error for the
   missing no-arg constructor.
   */
  function ConstructorChecks(className: string, ctors: seq<ConstructorDecl>, k: nat, found: bool): (r: seq<Diagnostic>)
    requires k <= |ctors|
    ensures forall d :: d in r <==>
      || (&& d.message == AutowiredConstructor
          && d.target.OnConstructor?
          && d.target.className == className
          && k <= d.target.ctorIndex
          && IsAutowiredMirror(ctors, d.target.ctorIndex, d.target.mirrorIndex))
      || (d == Diagnostic(MissingNoArgConstructor, OnClass(className)) && !found && !HasVisibleNoArgFrom(ctors, k))
    decreases |ctors| - k
  {
    if k == |ctors| then
      if found then [] else [Diagnostic(MissingNoArgConstructor, OnClass(className))]
    else
      var found' := found || (IsVisible(ctors[k]) && HasNoParameter(ctors[k]));
      AutowiredChecks(className, ctors, k, 0) + ConstructorChecks(className, ctors, k + 1, found')
  }

  /** processClass: final check, then constructor checks, then the nested-class check. */
  function ClassChecks(cls: ClassDecl): seq<Diagnostic>
  {
    FinalClassCheck(cls)
    + ConstructorChecks(cls.name, ConstructorsIn(cls.enclosed), 0, false)
    + StaticClassCheck(cls)
  }

  // ---------------------------------------------------------------------------
  // Method checks

  /** processForBFPP: at most one of the two warnings about static @Bean methods. */
  function BfppCheck(m: MethodDecl, t: Target): (r: seq<Diagnostic>)
    ensures |r| <= 1
    ensures forall d :: d in r <==>
      d.target == t && (d.message == StaticBeanMethod || d.message == BfppBeanMethodNotStatic)
      && ViolatesBeanRule(m, d.message)
  {
    if Static in m.modifiers then
      if !m.returnAssignableToBfpp then [Diagnostic(StaticBeanMethod, t)] else []
    else
      if m.returnAssignableToBfpp then [Diagnostic(BfppBeanMethodNotStatic, t)] else []
  }

  /**
   processMethod for the method at position k: nothing unless it is a @Bean
   method; otherwise the private, final and void-return errors, then the
   static/BeanFactoryPostProcessor warning.
   */
  function MethodChecks(className: string, k: nat, m: MethodDecl): (r: seq<Diagnostic>)
    ensures forall d :: d in r <==>
      d.target == OnMethod(className, k) && IsBeanMethod(m) && ViolatesBeanRule(m, d.message)
  {
    if IsBeanMethod(m) then
      var t := OnMethod(className, k);
      (if Private in m.modifiers then [Diagnostic(BeanMethodPrivate, t)] else [])
      + (if Final in m.modifiers then [Diagnostic(BeanMethodFinal, t)] else [])
      + (if m.returnsVoid then [Diagnostic(BeanMethodReturnsVoid, t)] else [])
      + BfppCheck(m, t)
    else []
  }

  /** The method checks of every method from position k on, in declaration order. */
  function MethodChecksFrom(className: string, methods: seq<MethodDecl>, k: nat): (r: seq<Diagnostic>)
    requires k <= |methods|
    ensures forall d :: d in r <==>
      && d.target.OnMethod?
      && d.target.className == className
      && k <= d.target.methodIndex < |methods|
      && IsBeanMethod(methods[d.target.methodIndex])
      && ViolatesBeanRule(methods[d.target.methodIndex], d.message)
    decreases |methods| - k
  {
    if k == |methods| then []
    else MethodChecks(className, k, methods[k]) + MethodChecksFrom(className, methods, k + 1)
  }

  // ---------------------------------------------------------------------------
  // One @Configuration class

  /** Everything processElement reports for a class carrying one @Configuration mirror. */
  function Validate(cls: ClassDecl): seq<Diagnostic>
  {
    ClassChecks(cls) + MethodChecksFrom(cls.name, MethodsIn(cls.enclosed), 0)
  }
}
