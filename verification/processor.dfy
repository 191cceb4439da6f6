/**
 The annotation processor's entry points: a compilation round hands it the
 annotation types it registered for and the elements carrying them; every
 type element among them is checked once per @Configuration mirror it carries.
 */
module Processor {
  import opened Messages
  import opened Elements
  import opened Validation
  import opened ValidationSpec

  /** An element of the round: a type (class) or any other element (method, field, ...). */
  datatype Element =
    | TypeElement(cls: ClassDecl)
    | OtherElement(annotations: seq<Annotation>)

  function AnnotationsOf(e: Element): seq<Annotation> {
    match e
    case TypeElement(cls) => cls.annotations
    case OtherElement(annotations) => annotations
  }

  /**
   A compilation round: whether an earlier round raised an error, whether
   this is the final round, and the elements of the round in the order the
   compiler reports them.
   */
  datatype RoundEnvironment = RoundEnvironment(errorRaised: bool, processingOver: bool, elements: seq<Element>)

  /** The result of one call: whether the annotations are claimed, and the diagnostics printed. */
  datatype ProcessResult = ProcessResult(claimed: bool, diagnostics: seq<Diagnostic>)

  /** The annotation types the two shipped processors register for. */
  const Java6Annotations: seq<Annotation> := [ConfigurationType]
  const Java8Annotations: seq<Annotation> := [ConfigurationType, BeanType]

  /** The elements that carry a mirror of the annotation type, in round order (getElementsAnnotatedWith). */
  function ElementsAnnotatedWith(elements: seq<Element>, a: Annotation): (r: seq<Element>)
    ensures forall e :: e in r <==> e in elements && a in AnnotationsOf(e)
  {
    if elements == [] then []
    else
      var head := if a in AnnotationsOf(elements[0]) then [elements[0]] else [];
      head + ElementsAnnotatedWith(elements[1..], a)
  }

  /** `n` copies of `s`, one after the other. */
  function Repeat(s: seq<Diagnostic>, n: nat): (r: seq<Diagnostic>)
    ensures |r| == n * |s|
  {
    if n == 0 then [] else s + Repeat(s, n - 1)
  }

  /**
   The loop of processElement over the mirrors of a class, from mirror j on:
   the class's diagnostics `v` are emitted once for every @Configuration mirror.
   */
  function PerConfigurationMirror(mirrors: seq<Annotation>, j: nat, v: seq<Diagnostic>): (r: seq<Diagnostic>)
    requires j <= |mirrors|
    ensures forall d :: d in r <==> ConfigurationType in mirrors[j..] && d in v
    decreases |mirrors| - j
  {
    if j == |mirrors| then []
    else
      assert mirrors[j..] == [mirrors[j]] + mirrors[j + 1..];
      (if mirrors[j] == ConfigurationType then v else []) + PerConfigurationMirror(mirrors, j + 1, v)
  }

  /** processElement: the class is validated once for every @Configuration mirror among its annotations. */
  function ProcessElement(cls: ClassDecl): (r: seq<Diagnostic>)
    ensures forall d :: d in r <==> ConfigurationType in cls.annotations && d in Validate(cls)
  {
    assert cls.annotations[0..] == cls.annotations;
    PerConfigurationMirror(cls.annotations, 0, Validate(cls))
  }

  /** The inner loop of processRound: every type element among the elements, in order. */
  function ProcessElements(elements: seq<Element>): (r: seq<Diagnostic>)
    ensures forall d :: d in r <==>
      exists e :: e in elements && e.TypeElement? && ConfigurationType in e.cls.annotations && d in Validate(e.cls)
  {
    if elements == [] then []
    else
      var head := if elements[0].TypeElement? then ProcessElement(elements[0].cls) else [];
      var tail := ProcessElements(elements[1..]);
      assert forall e :: e in elements <==> e == elements[0] || e in elements[1..];
      head + tail
  }

  /**
   processRound: for each registered annotation type, the elements carrying
   it. Every diagnostic printed belongs to the rule engine's output for some
   @Configuration type element of the round that carries a registered type.
   */
  function ProcessRound(annotations: seq<Annotation>, elements: seq<Element>): (r: seq<Diagnostic>)
    ensures forall d :: d in r ==>
      exists e, a :: a in annotations && a in AnnotationsOf(e) && e in elements
        && e.TypeElement? && ConfigurationType in e.cls.annotations && d in Validate(e.cls)
  {
    if annotations == [] then []
    else
      var reported := ElementsAnnotatedWith(elements, annotations[0]);
      var head := ProcessElements(reported);
      var tail := ProcessRound(annotations[1..], elements);
      assert forall d :: d in head ==>
        exists e :: e in reported && e.TypeElement? && ConfigurationType in e.cls.annotations && d in Validate(e.cls);
      assert forall e :: e in reported ==> annotations[0] in annotations && annotations[0] in AnnotationsOf(e) && e in elements;
      assert forall a :: a in annotations[1..] ==> a in annotations;
      head + tail
  }

  /**
   process: nothing is printed once an error has been raised or in the final
   round; the annotations are never claimed, so other processors still see them.
   */
  function Process(annotations: seq<Annotation>, round: RoundEnvironment): (r: ProcessResult)
    ensures !r.claimed
    ensures round.errorRaised || round.processingOver ==> r.diagnostics == []
  {
    var diagnostics := if !round.errorRaised && !round.processingOver
      then ProcessRound(annotations, round.elements) else [];
    ProcessResult(false, diagnostics)
  }

  // ---------------------------------------------------------------------------
  // Properties

  /** The loop emits the class's diagnostics once per @Configuration mirror, one copy after the other. */
  lemma {:induction false} PerConfigurationMirrorRepeats(mirrors: seq<Annotation>, j: nat, v: seq<Diagnostic>)
    requires j <= |mirrors|
    ensures PerConfigurationMirror(mirrors, j, v) == Repeat(v, CountOf(mirrors[j..], ConfigurationType))
    decreases |mirrors| - j
  {
    if j < |mirrors| {
      PerConfigurationMirrorRepeats(mirrors, j + 1, v);
      CountOfStep(mirrors, j, ConfigurationType);
      var c := CountOf(mirrors[j + 1..], ConfigurationType);
      if mirrors[j] == ConfigurationType {
        assert PerConfigurationMirror(mirrors, j, v) == v + Repeat(v, c);
      } else {
        assert PerConfigurationMirror(mirrors, j, v) == [] + Repeat(v, c);
      }
    } else {
      assert mirrors[j..] == [];
    }
  }

  /**
   A class is validated once per @Configuration mirror: with one mirror the
   output is exactly the rule engine's, with none it is empty.
   */
  lemma ProcessElementByMirrors(cls: ClassDecl)
    ensures ProcessElement(cls) == Repeat(Validate(cls), CountOf(cls.annotations, ConfigurationType))
    ensures ConfigurationType !in cls.annotations ==> ProcessElement(cls) == []
    ensures CountOf(cls.annotations, ConfigurationType) == 1 ==> ProcessElement(cls) == Validate(cls)
  {
    PerConfigurationMirrorRepeats(cls.annotations, 0, Validate(cls));
    assert cls.annotations[0..] == cls.annotations;
    assert Repeat(Validate(cls), 1) == Validate(cls) + [];
  }

  /**
   Every @Configuration class the round reports for a registered annotation
   type is checked in full, unless the round is gated.
   */
  lemma {:induction false} ProcessRoundComplete(annotations: seq<Annotation>, round: RoundEnvironment, a: Annotation, cls: ClassDecl)
    requires !round.errorRaised && !round.processingOver
    requires a in annotations && a in cls.annotations
    requires TypeElement(cls) in round.elements && ConfigurationType in cls.annotations
    ensures forall d :: d in Validate(cls) ==> d in Process(annotations, round).diagnostics
  {
    var e := TypeElement(cls);
    if annotations[0] == a {
      assert e in ElementsAnnotatedWith(round.elements, a);
    } else {
      ProcessRoundComplete(annotations[1..], round, a, cls);
    }
  }

  /**
   Only the nine messages about @Configuration classes and their @Bean methods
   are ever printed; the message for @Bean methods outside @Configuration
   classes never is.
   */
  lemma NeverBeanMethodNotInConfiguration(annotations: seq<Annotation>, round: RoundEnvironment)
    ensures forall d :: d in Process(annotations, round).diagnostics ==> d.message != BeanMethodNotInConfiguration
  {
    forall d | d in Process(annotations, round).diagnostics
      ensures d.message != BeanMethodNotInConfiguration
    {
      var e :| e in round.elements && e.TypeElement? && ConfigurationType in e.cls.annotations && d in Validate(e.cls);
      ValidateNeverNotInConfiguration(e.cls, d);
    }
  }

  lemma {:induction false} ProcessRoundConcat(a: seq<Annotation>, b: seq<Annotation>, elements: seq<Element>)
    ensures ProcessRound(a + b, elements) == ProcessRound(a, elements) + ProcessRound(b, elements)
  {
    if a == [] {
      assert a + b == b;
    } else {
      assert (a + b)[1..] == a[1..] + b;
      ProcessRoundConcat(a[1..], b, elements);
    }
  }

  /** Elements that are not @Configuration type elements (methods, other classes) print nothing. */
  lemma NoConfigurationClassNoOutput(elements: seq<Element>)
    requires forall e :: e in elements && e.TypeElement? ==> ConfigurationType !in e.cls.annotations
    ensures ProcessElements(elements) == []
  {
    FirstIsMember(ProcessElements(elements));
  }

  lemma FirstIsMember(ds: seq<Diagnostic>)
    ensures ds != [] ==> ds[0] in ds
  {
  }

  /**
   Registering for @Bean as well (the Java 8 processor) adds nothing unless a
   type element carries both @Bean and @Configuration: the @Bean methods it
   reaches are not type elements and are skipped.
   */
  lemma BeanRegistrationAddsNothing(annotations: seq<Annotation>, round: RoundEnvironment)
    requires forall e :: e in round.elements && e.TypeElement? ==>
      !(BeanType in e.cls.annotations && ConfigurationType in e.cls.annotations)
    ensures Process(annotations + [BeanType], round) == Process(annotations, round)
  {
    ProcessRoundConcat(annotations, [BeanType], round.elements);
    NoConfigurationClassNoOutput(ElementsAnnotatedWith(round.elements, BeanType));
    assert ProcessRound([BeanType], round.elements) == [];
  }

  /**
   Conversely, a type element carrying both @Bean and @Configuration is
   reached once more through the @Bean registration, so its diagnostics are
   printed again.
   */
  lemma BeanRegistrationRepeatsConfigurationBeans(annotations: seq<Annotation>, round: RoundEnvironment, cls: ClassDecl)
    requires !round.errorRaised && !round.processingOver
    requires TypeElement(cls) in round.elements
    requires BeanType in cls.annotations && ConfigurationType in cls.annotations
    requires Validate(cls) != []
    ensures |Process(annotations + [BeanType], round).diagnostics| > |Process(annotations, round).diagnostics|
  {
    ProcessRoundConcat(annotations, [BeanType], round.elements);
    ProcessRoundComplete([BeanType], round, BeanType, cls);
    assert Validate(cls)[0] in ProcessRound([BeanType], round.elements);
  }
}
