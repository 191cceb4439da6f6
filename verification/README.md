# Spring @Configuration validation processor — a Dafny model

This project models the rule engine of the Spring configuration validation
annotation processor, together with the message table it prints from.

While a Java source file is compiled, the processor inspects every class carrying a Spring
`@Configuration` annotation. It reports errors and warnings for class shapes
that Spring cannot proxy at runtime:

- a final class;
- a nested class that is not static;
- no visible no-argument constructor;
- an `@Autowired` constructor.

It also reports `@Bean` factory methods that are private, final or `void`, or
whose `static` modifier does not match whether they return a
`BeanFactoryPostProcessor`.

The model has six modules:

- `Messages` (`messages.dfy`): the ten message constants. Each has a severity
  (`KindOf`, the enum's `getKind`) and a text (`TextOf`, `getMessage`).
  `Lookup` is the reverse lookup: it finds the constant behind a printed
  (severity, text) pair.
- `Elements` (`elements.dfy`): the part of the compiler's element model the
  checks read.
  - A class has a name, modifiers, the kind of its enclosing element, its
    annotation mirrors and its enclosed members.
  - A constructor has modifiers, a parameter count and annotation mirrors.
  - A method has modifiers, annotation mirrors, whether it returns `void`, and
    whether its return type is assignable to `BeanFactoryPostProcessor`.
  - An annotation mirror is the qualified name of its annotation type.
  - `ConstructorsIn` and `MethodsIn` are the two `ElementFilter` filters.
- `Validation` (`validation.dfy`): the checks, in the order the processor runs
  them. `Validate(cls)` is everything one `processClass` call plus the
  following `processMethod` loop print for a class. A `Diagnostic` pairs a
  message constant with the element it is reported on: the class, one
  annotation mirror of one constructor, or one method.
- `ValidationSpec` (`validation_spec.dfy`): what the checks promise, stated
  independently of how they walk the class.
  - `Violation` is a declarative relation between a class and the diagnostics
    it deserves.
  - `Key` is the order of the output.
  - `Count` gives how often each message is printed.
- `Processor` (`processor.dfy`): `process`, `processRound` and
  `processElement`. A round is a list of elements. Each type element among
  them is validated once per `@Configuration` mirror it carries. Nothing is
  printed after an error has been raised or in the final round.
- `Fixtures` (`fixtures.dfy`): three test classes of the processor written as
  element values, with the exact output the model gives each:
  - `ValidTestConfiguration` with its static nested class;
  - `BFPPBeanMethodTestConfiguration`;
  - `BeanMethodNotInConfigurationTestConfiguration`.

  One extra class breaks every rule at once.

A class is checked once per `@Configuration` mirror, not once per class. In the
code, `processElement` runs the whole check for every `@Configuration` mirror
of the class (SpringConfigurationValidationProcessor.java:126-136). With the
usual single mirror, that means once. `Processor.PerConfigurationMirrorRepeats`
states the general case.

`BEAN_METHOD_NOT_IN_CONFIGURATION` is declared in the message enum, but no
code path prints it. The Java 8 processor also registers for `@Bean`. That
registration reaches the `@Bean` methods, which `processRound` skips because
they are not type elements. It also reaches any type element that carries
`@Bean`, and such an element is processed like any other: it is checked only if
it also carries `@Configuration` (`Processor.BeanRegistrationRepeatsConfigurationBeans`).
Neither path prints this message. The fixture file for this message holds a
`@Bean` method in a class without `@Configuration`. For that file the model
predicts no diagnostic at all (`Fixtures.NotConfigurationIsIgnored`), and
`Processor.NeverBeanMethodNotInConfiguration` states that the message is never
printed.

## Model

The source paths below are relative to the repository root. The two core files are:

- `config-validation-processor-core/src/main/java/ch/contrails/springconfigvalidation/SpringConfigurationValidationProcessor.java`, the processor;
- `config-validation-processor-core/src/main/java/com/github/pellaton/springconfigvalidation/SpringConfigurationMessage.java`, the message enum.

| member | source | states |
|---|---|---|
| Messages.TextOf | config-validation-processor-core/src/main/java/com/github/pellaton/springconfigvalidation/SpringConfigurationMessage.java:33-55 | no contract of its own: the getMessage text of each constant; `TextPrefixes`, `TextHasLength`, `TextsDistinct` and `LookupRoundTrip` state what its texts satisfy |
| Messages.KindOf | config-validation-processor-core/src/main/java/com/github/pellaton/springconfigvalidation/SpringConfigurationMessage.java:33-55 | every constant is an ERROR or a WARNING; the four class errors and the four factory-method errors are ERRORs; the two static-method advisories are exactly the WARNING constants |
| Messages.GroupsPartition | config-validation-processor-core/src/main/java/com/github/pellaton/springconfigvalidation/SpringConfigurationMessage.java:32-55 | each constant belongs to exactly one of the three groups: class errors, @Bean method errors, @Bean method warnings |
| Messages.AllMessagesComplete | config-validation-processor-core/src/main/java/com/github/pellaton/springconfigvalidation/SpringConfigurationMessage.java:30-55 | the declaration-order table lists every constant, each once |
| Messages.TextPrefixes | config-validation-processor-core/src/main/java/com/github/pellaton/springconfigvalidation/SpringConfigurationMessage.java:33-49 | class-error texts start with "Invalid bean definition class:" and factory-method error texts start with "Invalid factory method:" |
| Messages.TextHasLength | config-validation-processor-core/src/main/java/com/github/pellaton/springconfigvalidation/SpringConfigurationMessage.java:33-55 | each declared text has the length `TextLength` gives for its constant |
| Messages.TextLengthInjective | config-validation-processor-core/src/main/java/com/github/pellaton/springconfigvalidation/SpringConfigurationMessage.java:33-55 | no two constants are given the same text length |
| Messages.TextsDistinct | config-validation-processor-core/src/main/java/com/github/pellaton/springconfigvalidation/SpringConfigurationMessage.java:33-55 | no two constants share a text |
| Messages.LookupIn | config-validation-processor-core/src/main/java/com/github/pellaton/springconfigvalidation/SpringConfigurationMessage.java:74-85 | a found candidate has the given severity and text; when none is found, no candidate has both |
| Messages.Lookup | config-validation-processor-core/src/main/java/com/github/pellaton/springconfigvalidation/SpringConfigurationMessage.java:74-85 | a found constant was declared with that severity and text; nothing is found exactly when no constant was |
| Messages.LookupRoundTrip | config-validation-processor-core/src/main/java/com/github/pellaton/springconfigvalidation/SpringConfigurationMessage.java:62-85 | the (getKind, getMessage) pair of a constant identifies that constant |
| Elements.ConstructorsIn | config-validation-processor-core/src/main/java/ch/contrails/springconfigvalidation/SpringConfigurationValidationProcessor.java:129-131 | the constructor filter never yields more elements than the class encloses |
| Elements.MethodsIn | config-validation-processor-core/src/main/java/ch/contrails/springconfigvalidation/SpringConfigurationValidationProcessor.java:129-133 | the method filter never yields more elements than the class encloses |
| Elements.FiltersKeepTheirKind | config-validation-processor-core/src/main/java/ch/contrails/springconfigvalidation/SpringConfigurationValidationProcessor.java:129-133 | the constructor filter keeps exactly the enclosed constructors, and the method filter exactly the enclosed methods |
| Elements.ConstructorsInDistributes | config-validation-processor-core/src/main/java/ch/contrails/springconfigvalidation/SpringConfigurationValidationProcessor.java:129-131 | filtering constructors keeps declaration order: the filter of a concatenation is the concatenation of the filters |
| Elements.MethodsInDistributes | config-validation-processor-core/src/main/java/ch/contrails/springconfigvalidation/SpringConfigurationValidationProcessor.java:129-133 | filtering methods keeps declaration order in the same way |
| Elements.CountOf | config-validation-processor-core/src/main/java/ch/contrails/springconfigvalidation/SpringConfigurationValidationProcessor.java:126-128 | the number of mirrors of an annotation type is at most the number of mirrors, and is zero exactly when the type is absent |
| Validation.IsNestedClass | config-validation-processor-core/src/main/java/ch/contrails/springconfigvalidation/SpringConfigurationValidationProcessor.java:152-154 | no contract of its own: a class is nested when its enclosing element is a class; `ValidationSpec.ClassRules` states that the nested-class error needs it |
| Validation.IsVisible | config-validation-processor-core/src/main/java/ch/contrails/springconfigvalidation/SpringConfigurationValidationProcessor.java:190-192 | no contract of its own: a constructor is visible unless it is private; `ValidationSpec.ClassRules` and `NoArgFromStep` state what the no-arg verdict takes from it |
| Validation.HasNoParameter | config-validation-processor-core/src/main/java/ch/contrails/springconfigvalidation/SpringConfigurationValidationProcessor.java:186-188 | no contract of its own: a constructor takes no parameter; used with `IsVisible` by the same lemmas |
| Validation.IsBeanMethod | config-validation-processor-core/src/main/java/ch/contrails/springconfigvalidation/SpringConfigurationValidationProcessor.java:197-212 | no contract of its own: a method carries at least one mirror and one of them is @Bean; `ValidationSpec.BeanMethodRulesAt` and `NonBeanMethodUnreported` state that exactly these methods are checked |
| Validation.AnnotationTypesDistinct | config-validation-processor-core/src/main/java/ch/contrails/springconfigvalidation/SpringConfigurationValidationProcessor.java:93-100 | @Configuration, @Bean and @Autowired are three different annotation types |
| Validation.FinalClassCheck | config-validation-processor-core/src/main/java/ch/contrails/springconfigvalidation/SpringConfigurationValidationProcessor.java:156-160 | the class-final error on the class is printed exactly when the class is final |
| Validation.StaticClassCheck | config-validation-processor-core/src/main/java/ch/contrails/springconfigvalidation/SpringConfigurationValidationProcessor.java:146-154 | the nested-class error is printed exactly when a class encloses the class and the class is not static |
| Validation.AutowiredChecks | config-validation-processor-core/src/main/java/ch/contrails/springconfigvalidation/SpringConfigurationValidationProcessor.java:175-184 | an @Autowired error is printed exactly on the @Autowired mirrors of the constructor |
| Validation.ConstructorChecks | config-validation-processor-core/src/main/java/ch/contrails/springconfigvalidation/SpringConfigurationValidationProcessor.java:162-173 | the constructor loop prints the @Autowired errors of every constructor, plus the missing no-arg error exactly when no constructor, earlier or later, is non-private and parameterless |
| Validation.BfppCheck | config-validation-processor-core/src/main/java/ch/contrails/springconfigvalidation/SpringConfigurationValidationProcessor.java:226-238 | at most one warning; static-bean-method exactly when the method is static and not BeanFactoryPostProcessor-assignable; bfpp-not-static exactly when it is not static and is assignable |
| Validation.MethodChecks | config-validation-processor-core/src/main/java/ch/contrails/springconfigvalidation/SpringConfigurationValidationProcessor.java:194-252 | a method gets a message exactly when it carries a @Bean mirror and breaks that message's rule |
| Validation.MethodChecksFrom | config-validation-processor-core/src/main/java/ch/contrails/springconfigvalidation/SpringConfigurationValidationProcessor.java:133-135 | the method loop reports exactly the rule breaks of the @Bean methods, each on its own method |
| Validation.ClassChecks | config-validation-processor-core/src/main/java/ch/contrails/springconfigvalidation/SpringConfigurationValidationProcessor.java:140-144 | no contract of its own: `ValidationSpec.ClassRules` gives each class rule as an if-and-only-if, `PartRanks` the order of the four checks, `CountInValidate` the counts |
| Validation.Validate | config-validation-processor-core/src/main/java/ch/contrails/springconfigvalidation/SpringConfigurationValidationProcessor.java:129-144 | no contract of its own: `ValidationSpec.ValidateMatchesRules` matches it against the rule relation, `ValidateOrdered` fixes its order and `ValidateCounts` the number of each message |
| ValidationSpec.ValidateMatchesRules | config-validation-processor-core/src/main/java/ch/contrails/springconfigvalidation/SpringConfigurationValidationProcessor.java:140-256 | a diagnostic is printed for a class exactly when the declarative rule relation calls for it |
| ValidationSpec.ValidateNeverNotInConfiguration | config-validation-processor-core/src/main/java/com/github/pellaton/springconfigvalidation/SpringConfigurationMessage.java:48-49 | the checks never print the @Bean-outside-@Configuration error |
| ValidationSpec.AutowiredChecksOrdered | config-validation-processor-core/src/main/java/ch/contrails/springconfigvalidation/SpringConfigurationValidationProcessor.java:175-184 | the @Autowired errors of one constructor come in mirror order |
| ValidationSpec.ConstructorChecksOrdered | config-validation-processor-core/src/main/java/ch/contrails/springconfigvalidation/SpringConfigurationValidationProcessor.java:162-173 | the @Autowired errors come in constructor order, and the missing no-arg error comes after all of them |
| ValidationSpec.MethodChecksOrdered | config-validation-processor-core/src/main/java/ch/contrails/springconfigvalidation/SpringConfigurationValidationProcessor.java:194-203 | within one method the order is private, final, void, then the static/BeanFactoryPostProcessor warning |
| ValidationSpec.MethodChecksFromOrdered | config-validation-processor-core/src/main/java/ch/contrails/springconfigvalidation/SpringConfigurationValidationProcessor.java:133-135 | method diagnostics come in method declaration order |
| ValidationSpec.ValidateOrdered | config-validation-processor-core/src/main/java/ch/contrails/springconfigvalidation/SpringConfigurationValidationProcessor.java:129-144 | the output strictly follows the check order: final, @Autowired by constructor and mirror, missing no-arg, nested, then methods; hence no diagnostic is repeated |
| ValidationSpec.PartRanks | config-validation-processor-core/src/main/java/ch/contrails/springconfigvalidation/SpringConfigurationValidationProcessor.java:140-144 | the final check, the constructor checks, the nested check and the method checks occupy four consecutive ranges of that order |
| ValidationSpec.ClassRules | config-validation-processor-core/src/main/java/ch/contrails/springconfigvalidation/SpringConfigurationValidationProcessor.java:146-192 | each class rule as an if-and-only-if: final, nested-not-static (never for a top-level class), missing visible no-arg constructor, and one error per @Autowired mirror of any constructor |
| ValidationSpec.BeanMethodRulesAt | config-validation-processor-core/src/main/java/ch/contrails/springconfigvalidation/SpringConfigurationValidationProcessor.java:194-252 | for a @Bean method: private, final and void errors exactly when it is private, final or returns void; each static warning exactly under its condition |
| ValidationSpec.NonBeanMethodUnreported | config-validation-processor-core/src/main/java/ch/contrails/springconfigvalidation/SpringConfigurationValidationProcessor.java:194-212 | a method without a @Bean mirror gets no diagnostic |
| ValidationSpec.MethodRule | config-validation-processor-core/src/main/java/ch/contrails/springconfigvalidation/SpringConfigurationValidationProcessor.java:194-252 | the method at a position gets a message exactly when it is a @Bean method breaking that message's rule |
| ValidationSpec.MethodDiagnosticsComeFromMethodChecks | config-validation-processor-core/src/main/java/ch/contrails/springconfigvalidation/SpringConfigurationValidationProcessor.java:129-135 | diagnostics on methods come from the method loop only, never from the class checks |
| ValidationSpec.BeanMethodMessages | config-validation-processor-core/src/main/java/ch/contrails/springconfigvalidation/SpringConfigurationValidationProcessor.java:226-238 | no method gets both static warnings, and methods only ever get the five method-level messages |
| ValidationSpec.AutowiredChecksCount | config-validation-processor-core/src/main/java/ch/contrails/springconfigvalidation/SpringConfigurationValidationProcessor.java:175-184 | one @Autowired error per @Autowired mirror of the constructor |
| ValidationSpec.ConstructorChecksAutowiredCount | config-validation-processor-core/src/main/java/ch/contrails/springconfigvalidation/SpringConfigurationValidationProcessor.java:164-169 | the constructor loop prints as many @Autowired errors as there are @Autowired mirrors on all constructors |
| ValidationSpec.ConstructorChecksMissingCount | config-validation-processor-core/src/main/java/ch/contrails/springconfigvalidation/SpringConfigurationValidationProcessor.java:162-173 | the missing no-arg error is printed once when the flag stays unset, and otherwise not at all |
| ValidationSpec.NoArgFromStep | config-validation-processor-core/src/main/java/ch/contrails/springconfigvalidation/SpringConfigurationValidationProcessor.java:164-167 | a visible parameterless constructor exists from a position on exactly when it is that constructor or a later one |
| ValidationSpec.ValidateCounts | config-validation-processor-core/src/main/java/ch/contrails/springconfigvalidation/SpringConfigurationValidationProcessor.java:146-192 | class final and nested errors at most once, under their conditions; the missing no-arg error once exactly when no constructor is visible and parameterless; one @Autowired error per @Autowired mirror; never the @Bean-outside-@Configuration error |
| ValidationSpec.FinalAndNestedCounts | config-validation-processor-core/src/main/java/ch/contrails/springconfigvalidation/SpringConfigurationValidationProcessor.java:146-160 | the final and nested errors are printed once under their conditions and otherwise never |
| ValidationSpec.ConstructorErrorCounts | config-validation-processor-core/src/main/java/ch/contrails/springconfigvalidation/SpringConfigurationValidationProcessor.java:162-184 | the missing no-arg error is printed at most once, and the @Autowired error once per @Autowired mirror |
| ValidationSpec.NotInConfigurationCount | config-validation-processor-core/src/main/java/com/github/pellaton/springconfigvalidation/SpringConfigurationMessage.java:48-49 | the @Bean-outside-@Configuration message occurs zero times in the output |
| ValidationSpec.ClassCheckCounts | config-validation-processor-core/src/main/java/ch/contrails/springconfigvalidation/SpringConfigurationValidationProcessor.java:146-160 | the final check and the nested check each print only their own message, at most once |
| ValidationSpec.CountInValidate | config-validation-processor-core/src/main/java/ch/contrails/springconfigvalidation/SpringConfigurationValidationProcessor.java:129-144 | a message's count in the output is the sum of its counts in the four checks run one after the other |
| ValidationSpec.AutowiredDoesNotAffectNoArgVerdict | config-validation-processor-core/src/main/java/ch/contrails/springconfigvalidation/SpringConfigurationValidationProcessor.java:162-184 | annotations on constructors do not change the missing no-arg verdict: classes whose constructors agree on modifiers and parameter counts get the same number of those errors |
| Processor.ElementsAnnotatedWith | config-validation-processor-core/src/main/java/ch/contrails/springconfigvalidation/SpringConfigurationValidationProcessor.java:117 | the elements reported for an annotation type are exactly the round's elements carrying it |
| Processor.PerConfigurationMirror | config-validation-processor-core/src/main/java/ch/contrails/springconfigvalidation/SpringConfigurationValidationProcessor.java:126-136 | the mirror loop prints the class's diagnostics when a @Configuration mirror remains to be visited, and nothing else |
| Processor.ProcessElement | config-validation-processor-core/src/main/java/ch/contrails/springconfigvalidation/SpringConfigurationValidationProcessor.java:125-138 | a class prints exactly its validation diagnostics if it carries @Configuration, and nothing otherwise |
| Processor.ProcessElements | config-validation-processor-core/src/main/java/ch/contrails/springconfigvalidation/SpringConfigurationValidationProcessor.java:117-121 | a diagnostic is printed exactly when it belongs to a @Configuration type element among the elements; other elements print nothing |
| Processor.Process | config-validation-processor-core/src/main/java/ch/contrails/springconfigvalidation/SpringConfigurationValidationProcessor.java:107-112 | the annotations are never claimed, and nothing is printed once an error was raised or in the final round |
| Processor.PerConfigurationMirrorRepeats | config-validation-processor-core/src/main/java/ch/contrails/springconfigvalidation/SpringConfigurationValidationProcessor.java:126-136 | the class's diagnostics are printed once per @Configuration mirror, one copy after another |
| Processor.ProcessElementByMirrors | config-validation-processor-core/src/main/java/ch/contrails/springconfigvalidation/SpringConfigurationValidationProcessor.java:125-138 | a class without @Configuration prints nothing; with exactly one @Configuration mirror it prints exactly the rule engine's output |
| Processor.ProcessRound | config-validation-processor-core/src/main/java/ch/contrails/springconfigvalidation/SpringConfigurationValidationProcessor.java:115-123 | every diagnostic of a round belongs to the validation output of some @Configuration type element of the round that carries one of the registered annotation types; the converse of `ProcessRoundComplete` |
| Processor.ProcessRoundComplete | config-validation-processor-core/src/main/java/ch/contrails/springconfigvalidation/SpringConfigurationValidationProcessor.java:107-123 | in an ungated round, every diagnostic of a reported @Configuration class is printed |
| Processor.NeverBeanMethodNotInConfiguration | config-validation-processor-core/src/main/java/com/github/pellaton/springconfigvalidation/SpringConfigurationMessage.java:48-49 | the processor never prints the @Bean-outside-@Configuration message |
| Processor.ProcessRoundConcat | config-validation-processor-core/src/main/java/ch/contrails/springconfigvalidation/SpringConfigurationValidationProcessor.java:115-123 | the annotation types are handled one after the other: splitting the list splits the output |
| Processor.NoConfigurationClassNoOutput | config-validation-processor-core/src/main/java/ch/contrails/springconfigvalidation/SpringConfigurationValidationProcessor.java:117-121 | when no type element among the elements carries @Configuration, nothing is printed: methods and other classes are skipped |
| Processor.BeanRegistrationAddsNothing | config-validation-processor-java8/src/main/java/com/github/pellaton/springconfigvalidation/SpringConfigurationValidationProcessorJava8.java:31-34 | also registering for @Bean changes nothing unless some type element carries both @Bean and @Configuration: the @Bean methods it reaches are skipped |
| Processor.BeanRegistrationRepeatsConfigurationBeans | config-validation-processor-java8/src/main/java/com/github/pellaton/springconfigvalidation/SpringConfigurationValidationProcessorJava8.java:31-34 | a type element carrying both @Bean and @Configuration with a non-empty verdict is printed more often once @Bean is registered too |
| Fixtures.RoundOfCleanClassesIsClean | config-validation-processor-core/src/main/java/ch/contrails/springconfigvalidation/SpringConfigurationValidationProcessor.java:107-123 | a round whose @Configuration classes all validate cleanly prints nothing |
| Fixtures.ValidConfigurationIsClean | config-validation-processor-core/src/test/resources/ch/contrails/springconfigvalidation/ValidTestConfiguration.java:30-64 | the valid test class and its static nested class get no diagnostic, from the Java 6 and the Java 8 registration alike |
| Fixtures.BfppConfigurationWarnsOnce | config-validation-processor-core/src/test/java/ch/contrails/springconfigvalidation/SpringConfigurationValidationProcessorTest.java:127-130 | the non-static BeanFactoryPostProcessor @Bean method gets exactly one diagnostic, the bfpp-not-static warning; its printed severity and text look up to that message, as the test's expectation is matched |
| Fixtures.NotConfigurationIsIgnored | config-validation-processor-core/src/test/resources/com/github/pellaton/springconfigvalidation/BeanMethodNotInConfigurationTestConfiguration.java:29-35 | a @Bean method in a class without @Configuration gets no diagnostic from either registration |
| Fixtures.FaultyGetsEveryMessage | config-validation-processor-core/src/main/java/ch/contrails/springconfigvalidation/SpringConfigurationValidationProcessor.java:43-57 | a class breaking every implemented rule gets all nine printable messages, in the fixed order |

## Left out

- `init` and its `getTypeElement` lookups are left out. The annotation types are compared by qualified name. The case where Spring is not on the class path (the lookups return null) is not modelled.
- `Messager.printMessage` is modelled as the order of the returned diagnostic sequence. Source positions and line numbers are left out; a diagnostic names only its target element.
- `Types.isAssignable` against `BeanFactoryPostProcessor` is a question to the compiler's type system. It is recorded as the boolean `returnAssignableToBfpp` of each method. The void check is recorded as `returnsVoid`.
- `RoundEnvironment.getElementsAnnotatedWith` is modelled as a filter over the round's elements by direct annotation. Inherited annotations are not modelled.
- The registered annotation set and the element set returned by `getElementsAnnotatedWith` are both a `Set` in Java, with unspecified iteration order. The model takes both orders as given by sequences: annotation types in list order, and elements in the order of the round.
- `SpringConfigurationValidationProcessorJava6` and `SpringConfigurationValidationProcessorJava8` carry only metadata. They appear only as the two annotation lists `Java6Annotations` and `Java8Annotations`.
- The check that a @Configuration class must not be local is listed as unimplemented in the source's class comment, so it is not modelled.
- The other ten classes the test suite compiles are not part of this model: `FinalClassTestConfiguration`, `AutowiredConstructorConfiguration`, `MissingNoArgConstructorConfiguration`, `InaccessibleNoArgConstructorConfiguration`, `NestedClassNotStaticTestConfiguration`, `PrivateBeanMethodTestConfiguration`, `VoidBeanMethodTestConfiguration`, `FinalBeanMethodTestConfiguration`, `MultiAnnotationBeanMethodTestConfiguration` and `StaticBeanMethodTestConfiguration`. Their class sources are not at hand, so their shapes would be guesses. The `Faulty` class covers the same rules together.
- The test harness that compiles the fixtures is not modelled: `AnnotationProcessorTestCompiler` runs javac on files, and `DiagnosticsAssert` compares the output. The fixtures are element values, and default constructors are written out.
- Messages.TextOf: carries no contract of its own. Its texts are pinned down by `TextPrefixes`, `TextHasLength`, `TextsDistinct` and `LookupRoundTrip`. Whether the texts equal the declared strings character for character can only be checked by reading them.
- Elements.ConstructorsIn: its own contract only bounds the length. Which elements it keeps is stated by `FiltersKeepTheirKind` and `ConstructorsInDistributes`.
- Elements.MethodsIn: the same as `ConstructorsIn`, with `FiltersKeepTheirKind` and `MethodsInDistributes`.
