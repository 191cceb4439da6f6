/**
 Three test classes of the processor (ValidTestConfiguration with its nested
 class, BFPPBeanMethodTestConfiguration and
 BeanMethodNotInConfigurationTestConfiguration), written as element
 descriptions, with the diagnostics the rule engine gives them; and one class
 that breaks every rule. Constructors
 the compiler supplies by default are written out: a default constructor takes
 no parameter and has the access of its class.
 */
module Fixtures {
  import opened Messages
  import opened Elements
  import opened Validation
  import opened Processor

  const ValidName := "ch.contrails.springconfigvalidation.ValidTestConfiguration"
  const NestedName := "ch.contrails.springconfigvalidation.ValidTestConfiguration.NestedClass"

  /** A valid @Configuration class: abstract, two package-private constructors, one @Bean method. */
  const ValidConfiguration := ClassDecl(
    ValidName, {Public, Abstract}, Package, [ConfigurationType],
    [ ConstructorMember(ConstructorDecl({}, 0, [])),
      ConstructorMember(ConstructorDecl({}, 1, [])),
      MethodMember(MethodDecl("someString", {Public}, [BeanType], false, false)),
      MethodMember(MethodDecl("protectedAbstractString", {Protected, Abstract}, [], false, false)),
      MethodMember(MethodDecl("defaultAbstractString", {Abstract}, [], false, false)),
      OtherMember ])

  /** Its static nested @Configuration class with a static BeanFactoryPostProcessor @Bean method. */
  const ValidNested := ClassDecl(
    NestedName, {Static}, Class, [ConfigurationType],
    [ ConstructorMember(ConstructorDecl({}, 0, [])),
      MethodMember(MethodDecl("propertyPlaceholder", {Public, Static}, [BeanType], false, true)) ])

  /** The round that compiles the valid class: both classes and both @Bean methods are annotated elements. */
  const ValidRound := RoundEnvironment(false, false, [
    TypeElement(ValidConfiguration),
    OtherElement([BeanType]),
    TypeElement(ValidNested),
    OtherElement([BeanType]) ])

  lemma ValidConfigurationMembers()
    ensures ConstructorsIn(ValidConfiguration.enclosed) == [ConstructorDecl({}, 0, []), ConstructorDecl({}, 1, [])]
    ensures MethodsIn(ValidConfiguration.enclosed) == [
      MethodDecl("someString", {Public}, [BeanType], false, false),
      MethodDecl("protectedAbstractString", {Protected, Abstract}, [], false, false),
      MethodDecl("defaultAbstractString", {Abstract}, [], false, false) ]
  {
    var mem := ValidConfiguration.enclosed;
    assert mem[5..] == [OtherMember];
    assert mem[4..] == [mem[4]] + mem[5..];
    assert mem[3..] == [mem[3]] + mem[4..];
    assert mem[2..] == [mem[2]] + mem[3..];
    assert mem[1..] == [mem[1]] + mem[2..];
    assert ConstructorsIn(mem[5..]) == [] && MethodsIn(mem[5..]) == [];
    assert ConstructorsIn(mem[4..]) == [];
    assert ConstructorsIn(mem[3..]) == [];
    assert ConstructorsIn(mem[2..]) == [];
    assert MethodsIn(mem[4..]) == [mem[4].methodDecl];
    assert MethodsIn(mem[3..]) == [mem[3].methodDecl, mem[4].methodDecl];
    assert MethodsIn(mem[2..]) == [mem[2].methodDecl, mem[3].methodDecl, mem[4].methodDecl];
    assert MethodsIn(mem[1..]) == MethodsIn(mem[2..]);
  }

  lemma ValidNestedMembers()
    ensures ConstructorsIn(ValidNested.enclosed) == [ConstructorDecl({}, 0, [])]
    ensures MethodsIn(ValidNested.enclosed) == [
      MethodDecl("propertyPlaceholder", {Public, Static}, [BeanType], false, true) ]
  {
    var mem := ValidNested.enclosed;
    assert mem[1..] == [mem[1]];
  }

  lemma ValidConfigurationClassChecks()
    ensures ClassChecks(ValidConfiguration) == []
  {
    ValidConfigurationMembers();
    AnnotationTypesDistinct();
    var ctors := ConstructorsIn(ValidConfiguration.enclosed);
    assert AutowiredChecks(ValidName, ctors, 0, 0) == [];
    assert AutowiredChecks(ValidName, ctors, 1, 0) == [];
    assert ConstructorChecks(ValidName, ctors, 2, true) == [];
    assert ConstructorChecks(ValidName, ctors, 1, true) == [];
  }

  lemma ValidConfigurationMethodChecks()
    ensures MethodChecksFrom(ValidName, MethodsIn(ValidConfiguration.enclosed), 0) == []
  {
    ValidConfigurationMembers();
    var methods := MethodsIn(ValidConfiguration.enclosed);
    assert MethodChecksFrom(ValidName, methods, 3) == [];
    assert MethodChecksFrom(ValidName, methods, 2) == [];
    assert MethodChecksFrom(ValidName, methods, 1) == [];
    assert MethodChecks(ValidName, 0, methods[0]) == [];
  }

  lemma ValidNestedChecks()
    ensures ClassChecks(ValidNested) == []
    ensures MethodChecksFrom(NestedName, MethodsIn(ValidNested.enclosed), 0) == []
  {
    ValidNestedMembers();
    var ctors := ConstructorsIn(ValidNested.enclosed);
    assert AutowiredChecks(NestedName, ctors, 0, 0) == [];
    assert ConstructorChecks(NestedName, ctors, 1, true) == [];
    var methods := MethodsIn(ValidNested.enclosed);
    assert MethodChecksFrom(NestedName, methods, 1) == [];
    assert MethodChecks(NestedName, 0, methods[0]) == [];
  }

  /** The valid class and its nested class get no diagnostic, from either processor. */
  lemma ValidConfigurationIsClean()
    ensures Validate(ValidConfiguration) == []
    ensures Validate(ValidNested) == []
    ensures Process(Java6Annotations, ValidRound).diagnostics == []
    ensures Process(Java8Annotations, ValidRound).diagnostics == []
  {
    ValidConfigurationClassChecks();
    ValidConfigurationMethodChecks();
    ValidNestedChecks();
    assert forall e :: e in ValidRound.elements && e.TypeElement? ==> e.cls == ValidConfiguration || e.cls == ValidNested;
    RoundOfCleanClassesIsClean(Java6Annotations, ValidRound);
    RoundOfCleanClassesIsClean(Java8Annotations, ValidRound);
  }

  /** A round whose type elements all validate cleanly prints nothing. */
  lemma RoundOfCleanClassesIsClean(annotations: seq<Annotation>, round: RoundEnvironment)
    requires forall e :: e in round.elements && e.TypeElement? && ConfigurationType in e.cls.annotations ==>
      Validate(e.cls) == []
    ensures Process(annotations, round).diagnostics == []
  {
    FirstIsMember(Process(annotations, round).diagnostics);
  }

  const BfppName := "ch.contrails.springconfigvalidation.BFPPBeanMethodTestConfiguration"

  /** A @Configuration class with a non-static @Bean method returning a BeanFactoryPostProcessor. */
  const BfppConfiguration := ClassDecl(
    BfppName, {Public}, Package, [ConfigurationType],
    [ ConstructorMember(ConstructorDecl({Public}, 0, [])),
      MethodMember(MethodDecl("propertyPlaceholder", {Public}, [BeanType], false, true)) ])

  lemma BfppMembers()
    ensures ConstructorsIn(BfppConfiguration.enclosed) == [ConstructorDecl({Public}, 0, [])]
    ensures MethodsIn(BfppConfiguration.enclosed) == [
      MethodDecl("propertyPlaceholder", {Public}, [BeanType], false, true) ]
  {
    var mem := BfppConfiguration.enclosed;
    assert mem[1..] == [mem[1]];
  }

  lemma BfppChecks()
    ensures ClassChecks(BfppConfiguration) == []
    ensures MethodChecksFrom(BfppName, MethodsIn(BfppConfiguration.enclosed), 0)
      == [Diagnostic(BfppBeanMethodNotStatic, OnMethod(BfppName, 0))]
  {
    BfppMembers();
    var ctors := ConstructorsIn(BfppConfiguration.enclosed);
    assert AutowiredChecks(BfppName, ctors, 0, 0) == [];
    assert ConstructorChecks(BfppName, ctors, 1, true) == [];
    var methods := MethodsIn(BfppConfiguration.enclosed);
    assert MethodChecksFrom(BfppName, methods, 1) == [];
    assert MethodChecks(BfppName, 0, methods[0]) == [Diagnostic(BfppBeanMethodNotStatic, OnMethod(BfppName, 0))];
  }

  /**
   The non-static BeanFactoryPostProcessor @Bean method draws exactly one
   warning, and its printed severity and text identify the expected message.
   */
  lemma BfppConfigurationWarnsOnce()
    ensures Validate(BfppConfiguration) == [Diagnostic(BfppBeanMethodNotStatic, OnMethod(BfppName, 0))]
    ensures Validate(BfppConfiguration)[0].Severity() == Warning
    ensures Lookup(Validate(BfppConfiguration)[0].Severity(), Validate(BfppConfiguration)[0].Text())
      == Some(BfppBeanMethodNotStatic)
  {
    BfppChecks();
    LookupRoundTrip(BfppBeanMethodNotStatic);
  }

  /** A class that is not annotated with @Configuration but declares a @Bean method. */
  const NotConfiguration := ClassDecl(
    "com.github.pellaton.springconfigvalidation.BeanMethodNotInConfigurationTestConfiguration",
    {Public}, Package, [],
    [ ConstructorMember(ConstructorDecl({Public}, 0, [])),
      MethodMember(MethodDecl("someString", {Public}, [BeanType], false, false)) ])

  const NotConfigurationRound := RoundEnvironment(false, false, [
    TypeElement(NotConfiguration),
    OtherElement([BeanType]) ])

  /** The processor registered for @Bean reaches only the method, which is not a type element: nothing is printed. */
  lemma NotConfigurationIsIgnored()
    ensures Process(Java8Annotations, NotConfigurationRound).diagnostics == []
    ensures Process(Java6Annotations, NotConfigurationRound).diagnostics == []
  {
    AnnotationTypesDistinct();
    RoundOfCleanClassesIsClean(Java8Annotations, NotConfigurationRound);
    RoundOfCleanClassesIsClean(Java6Annotations, NotConfigurationRound);
  }

  const FaultyName := "Outer.Faulty"

  /**
   A class breaking every rule: final, nested but not static, only a private
   no-arg constructor which is @Autowired, a private final void static @Bean
   method and a non-static BeanFactoryPostProcessor @Bean method.
   */
  const Faulty := ClassDecl(
    FaultyName, {Final}, Class, [ConfigurationType],
    [ ConstructorMember(ConstructorDecl({Private}, 0, [AutowiredType])),
      MethodMember(MethodDecl("broken", {Private, Final, Static}, [BeanType], true, false)),
      MethodMember(MethodDecl("postProcessor", {Public}, [BeanType], false, true)) ])

  lemma FaultyMembers()
    ensures ConstructorsIn(Faulty.enclosed) == [ConstructorDecl({Private}, 0, [AutowiredType])]
    ensures MethodsIn(Faulty.enclosed) == [
      MethodDecl("broken", {Private, Final, Static}, [BeanType], true, false),
      MethodDecl("postProcessor", {Public}, [BeanType], false, true) ]
  {
    var mem := Faulty.enclosed;
    assert mem[2..] == [mem[2]];
    assert mem[1..] == [mem[1]] + mem[2..];
    assert ConstructorsIn(mem[1..]) == [];
    assert MethodsIn(mem[2..]) == [mem[2].methodDecl];
    assert MethodsIn(mem[1..]) == [mem[1].methodDecl, mem[2].methodDecl];
  }

  /** The nine messages the processor can print, all at once and in the fixed order. */
  lemma FaultyGetsEveryMessage()
    ensures Validate(Faulty) == [
      Diagnostic(ClassFinal, OnClass(FaultyName)),
      Diagnostic(AutowiredConstructor, OnConstructor(FaultyName, 0, 0)),
      Diagnostic(MissingNoArgConstructor, OnClass(FaultyName)),
      Diagnostic(NestedClassNotStatic, OnClass(FaultyName)) ] + [
      Diagnostic(BeanMethodPrivate, OnMethod(FaultyName, 0)),
      Diagnostic(BeanMethodFinal, OnMethod(FaultyName, 0)),
      Diagnostic(BeanMethodReturnsVoid, OnMethod(FaultyName, 0)),
      Diagnostic(StaticBeanMethod, OnMethod(FaultyName, 0)),
      Diagnostic(BfppBeanMethodNotStatic, OnMethod(FaultyName, 1)) ]
  {
    FaultyClassChecks();
    FaultyMethodChecks();
  }

  lemma FaultyClassChecks()
    ensures ClassChecks(Faulty) == [
      Diagnostic(ClassFinal, OnClass(FaultyName)),
      Diagnostic(AutowiredConstructor, OnConstructor(FaultyName, 0, 0)),
      Diagnostic(MissingNoArgConstructor, OnClass(FaultyName)),
      Diagnostic(NestedClassNotStatic, OnClass(FaultyName)) ]
  {
    FaultyMembers();
    var ctors := ConstructorsIn(Faulty.enclosed);
    assert AutowiredChecks(FaultyName, ctors, 0, 1) == [];
    assert AutowiredChecks(FaultyName, ctors, 0, 0) == [Diagnostic(AutowiredConstructor, OnConstructor(FaultyName, 0, 0))];
    assert ConstructorChecks(FaultyName, ctors, 1, false) == [Diagnostic(MissingNoArgConstructor, OnClass(FaultyName))];
  }

  lemma FaultyMethodChecks()
    ensures MethodChecksFrom(FaultyName, MethodsIn(Faulty.enclosed), 0) == [
      Diagnostic(BeanMethodPrivate, OnMethod(FaultyName, 0)),
      Diagnostic(BeanMethodFinal, OnMethod(FaultyName, 0)),
      Diagnostic(BeanMethodReturnsVoid, OnMethod(FaultyName, 0)),
      Diagnostic(StaticBeanMethod, OnMethod(FaultyName, 0)),
      Diagnostic(BfppBeanMethodNotStatic, OnMethod(FaultyName, 1)) ]
  {
    FaultyMembers();
    var methods := MethodsIn(Faulty.enclosed);
    FaultyFirstMethod(methods[0]);
    assert MethodChecks(FaultyName, 1, methods[1]) == [Diagnostic(BfppBeanMethodNotStatic, OnMethod(FaultyName, 1))];
    assert MethodChecksFrom(FaultyName, methods, 2) == [];
    assert MethodChecksFrom(FaultyName, methods, 1) == [Diagnostic(BfppBeanMethodNotStatic, OnMethod(FaultyName, 1))];
  }

  /** The private final static void @Bean method breaks four rules, reported in rule order. */
  lemma FaultyFirstMethod(m: MethodDecl)
    requires m == MethodDecl("broken", {Private, Final, Static}, [BeanType], true, false)
    ensures MethodChecks(FaultyName, 0, m) == [
      Diagnostic(BeanMethodPrivate, OnMethod(FaultyName, 0)),
      Diagnostic(BeanMethodFinal, OnMethod(FaultyName, 0)),
      Diagnostic(BeanMethodReturnsVoid, OnMethod(FaultyName, 0)),
      Diagnostic(StaticBeanMethod, OnMethod(FaultyName, 0)) ]
  {
    assert IsBeanMethod(m);
  }
}
