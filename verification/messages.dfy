/**
 The diagnostic messages of the configuration validator: one constant per
 violation kind, each carrying a severity (a javax.tools.Diagnostic.Kind) and a
 fixed text.
 */
module Messages {

  /** An optional value, used for the reverse lookup of a message. */
  datatype Option<+T> = None | Some(value: T)

  /** The severities a compiler diagnostic can have. */
  datatype Kind = Error | Warning | MandatoryWarning | Note | Other

  /** The message constants, in declaration order. */
  datatype Message =
    | NestedClassNotStatic
    | ClassFinal
    | MissingNoArgConstructor
    | AutowiredConstructor
    | BeanMethodFinal
    | BeanMethodReturnsVoid
    | BeanMethodPrivate
    | BeanMethodNotInConfiguration
    | StaticBeanMethod
    | BfppBeanMethodNotStatic

  /** Every constant, in declaration order. */
  const AllMessages: seq<Message> := [
    NestedClassNotStatic, ClassFinal, MissingNoArgConstructor, AutowiredConstructor,
    BeanMethodFinal, BeanMethodReturnsVoid, BeanMethodPrivate, BeanMethodNotInConfiguration,
    StaticBeanMethod, BfppBeanMethodNotStatic
  ]

  /** The text every error about a @Configuration class starts with. */
  const ClassPrefix: string := "Invalid bean definition class:"

  /** The text every error about a @Bean factory method starts with. */
  const FactoryMethodPrefix: string := "Invalid factory method:"

  /** The advice both warnings about static @Bean methods are built on. */
  const BfppAdvice: string := "@Bean methods returning a BeanFactoryPostProcessor should be static."

  /** The four errors about the @Configuration class itself. */
  predicate IsClassError(m: Message) {
    m.NestedClassNotStatic? || m.ClassFinal? || m.MissingNoArgConstructor? || m.AutowiredConstructor?
  }

  /** The four errors about a @Bean factory method. */
  predicate IsBeanMethodError(m: Message) {
    m.BeanMethodFinal? || m.BeanMethodReturnsVoid? || m.BeanMethodPrivate? || m.BeanMethodNotInConfiguration?
  }

  /** The two advisory messages about static @Bean methods. */
  predicate IsBeanMethodWarning(m: Message) {
    m.StaticBeanMethod? || m.BfppBeanMethodNotStatic?
  }

  /** The severity a constant was declared with (getKind). */
  function KindOf(m: Message): (k: Kind)
    ensures k == Error || k == Warning
    ensures IsClassError(m) || IsBeanMethodError(m) ==> k == Error
    ensures k == Warning <==> IsBeanMethodWarning(m)
  {
    match m
    case StaticBeanMethod => Warning
    case BfppBeanMethodNotStatic => Warning
    case _ => Error
  }

  /**
   The text a constant was declared with (getMessage). Each error text is
   written as its group's prefix followed by the rest of the sentence; the
   resulting string is the declared one.
   */
  function TextOf(m: Message): string
  {
    match m
    case NestedClassNotStatic =>
      ClassPrefix + " Nested @Configuration classes must be static."
    case ClassFinal =>
      ClassPrefix + " @Configuration classes must not be final."
    case MissingNoArgConstructor =>
      ClassPrefix + " @Configuration classes must have a visible no-arg constructor."
    case AutowiredConstructor =>
      ClassPrefix + " @Configuration class constructors must not be @Autowired."
    case BeanMethodFinal =>
      FactoryMethodPrefix + " @Bean methods must not be final."
    case BeanMethodReturnsVoid =>
      FactoryMethodPrefix + " @Bean methods must have a non-void return type."
    case BeanMethodPrivate =>
      FactoryMethodPrefix + " @Bean methods must not be private."
    case BeanMethodNotInConfiguration =>
      FactoryMethodPrefix + " @Bean methods must be declared in classes annotated with @Configuration."
    case StaticBeanMethod =>
      "Only " + BfppAdvice
    case BfppBeanMethodNotStatic =>
      BfppAdvice
  }

  /** Every message is one of exactly one of the three groups. */
  lemma GroupsPartition(m: Message)
    ensures IsClassError(m) || IsBeanMethodError(m) || IsBeanMethodWarning(m)
    ensures !(IsClassError(m) && IsBeanMethodError(m))
    ensures !(IsClassError(m) && IsBeanMethodWarning(m))
    ensures !(IsBeanMethodError(m) && IsBeanMethodWarning(m))
  {
  }

  /** The declaration-order table lists every constant exactly once. */
  lemma AllMessagesComplete(m: Message)
    ensures m in AllMessages
    ensures forall i, j :: 0 <= i < j < |AllMessages| ==> AllMessages[i] != AllMessages[j]
  {
  }

  /**
   The errors about the class share one prefix and the errors about factory
   methods another.
   */
  lemma TextPrefixes(m: Message)
    ensures IsClassError(m) ==> ClassPrefix <= TextOf(m)
    ensures IsBeanMethodError(m) ==> FactoryMethodPrefix <= TextOf(m)
  {
  }

  /** The length of each declared text; the ten lengths are pairwise different. */
  function TextLength(m: Message): nat
  {
    match m
    case NestedClassNotStatic => 76
    case ClassFinal => 72
    case MissingNoArgConstructor => 93
    case AutowiredConstructor => 88
    case BeanMethodFinal => 56
    case BeanMethodReturnsVoid => 71
    case BeanMethodPrivate => 58
    case BeanMethodNotInConfiguration => 96
    case StaticBeanMethod => 73
    case BfppBeanMethodNotStatic => 68
  }

  lemma TextHasLength(m: Message)
    ensures |TextOf(m)| == TextLength(m)
  {
    GroupsPartition(m);
    if IsClassError(m) {
      ClassErrorTextHasLength(m);
    } else if IsBeanMethodError(m) {
      BeanMethodErrorTextHasLength(m);
    } else {
      WarningTextHasLength(m);
    }
  }

  lemma ClassErrorTextHasLength(m: Message)
    requires IsClassError(m)
    ensures |TextOf(m)| == TextLength(m)
  {
    assert |ClassPrefix| == 30;
    match m
    case NestedClassNotStatic =>
    case ClassFinal =>
    case MissingNoArgConstructor =>
    case AutowiredConstructor =>
  }

  lemma BeanMethodErrorTextHasLength(m: Message)
    requires IsBeanMethodError(m)
    ensures |TextOf(m)| == TextLength(m)
  {
    assert |FactoryMethodPrefix| == 23;
    match m
    case BeanMethodFinal =>
    case BeanMethodReturnsVoid =>
    case BeanMethodPrivate =>
    case BeanMethodNotInConfiguration =>
  }

  lemma WarningTextHasLength(m: Message)
    requires IsBeanMethodWarning(m)
    ensures |TextOf(m)| == TextLength(m)
  {
    assert |BfppAdvice| == 68;
    match m
    case StaticBeanMethod =>
    case BfppBeanMethodNotStatic =>
  }

  /** No two constants share a text, so the text alone identifies the constant. */
  lemma TextsDistinct(a: Message, b: Message)
    ensures TextOf(a) == TextOf(b) ==> a == b
  {
    if TextOf(a) == TextOf(b) {
      TextHasLength(a);
      TextHasLength(b);
      TextLengthInjective(a, b);
    }
  }

  lemma TextLengthInjective(a: Message, b: Message)
    ensures TextLength(a) == TextLength(b) ==> a == b
  {
  }

  /** The first of the candidates declared with this severity and text. */
  function LookupIn(kind: Kind, text: string, candidates: seq<Message>): (r: Option<Message>)
    ensures r.Some? ==> r.value in candidates && KindOf(r.value) == kind && TextOf(r.value) == text
    ensures r.None? ==> forall m :: m in candidates ==> KindOf(m) != kind || TextOf(m) != text
  {
    if candidates == [] then None
    else if KindOf(candidates[0]) == kind && TextOf(candidates[0]) == text then Some(candidates[0])
    else LookupIn(kind, text, candidates[1..])
  }

  /**
   The constant a (severity, text) pair was printed for, if any: how a printed
   diagnostic is matched back to the constant that produced it.
   */
  function Lookup(kind: Kind, text: string): (r: Option<Message>)
    ensures r.Some? ==> KindOf(r.value) == kind && TextOf(r.value) == text
    ensures r.None? <==> forall m: Message :: KindOf(m) != kind || TextOf(m) != text
  {
    var r := LookupIn(kind, text, AllMessages);
    assert r.None? ==> forall m: Message :: KindOf(m) != kind || TextOf(m) != text by {
      forall m: Message | r.None? ensures KindOf(m) != kind || TextOf(m) != text {
        AllMessagesComplete(m);
      }
    }
    r
  }

  /** Printing a constant and looking the printed pair up gives the constant back. */
  lemma LookupRoundTrip(m: Message)
    ensures Lookup(KindOf(m), TextOf(m)) == Some(m)
  {
    var r := Lookup(KindOf(m), TextOf(m));
    assert r.Some?;
    TextsDistinct(r.value, m);
  }
}
