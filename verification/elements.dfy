/**
 The slice of the compiler's element model the validator looks at: a class
 with its modifiers, the kind of element that encloses it, its annotation
 mirrors and its enclosed members (constructors, methods and everything else).
 An annotation mirror is represented by the qualified name of its annotation
 type; two mirrors denote the same annotation type exactly when the names agree.
 */
module Elements {

  /** The Java modifiers an element can carry. */
  datatype Modifier =
    | Public | Protected | Private | Abstract | Default | Static
    | Final | Transient | Volatile | Synchronized | Native | Strictfp

  /** The kinds of element that can enclose a class declaration. */
  datatype ElementKind =
    | Package | Class | Interface | Enum | AnnotationType
    | Method | Constructor | StaticInit | InstanceInit

  /** An annotation mirror, named by its annotation type. */
  type Annotation = string

  /** A constructor: its modifiers, how many parameters it takes and its annotations. */
  datatype ConstructorDecl = ConstructorDecl(
    modifiers: set<Modifier>,
    parameterCount: nat,
    annotations: seq<Annotation>)

  /**
   A method. Whether the return type is void and whether it is assignable to
   BeanFactoryPostProcessor are answers of the compiler's type utilities,
   recorded here as plain facts.
   */
  datatype MethodDecl = MethodDecl(
    name: string,
    modifiers: set<Modifier>,
    annotations: seq<Annotation>,
    returnsVoid: bool,
    returnAssignableToBfpp: bool)

  /** An enclosed element of a class, in declaration order. */
  datatype Member =
    | ConstructorMember(ctor: ConstructorDecl)
    | MethodMember(methodDecl: MethodDecl)
    | OtherMember  // fields, initializers, nested types

  /** A class (type element). */
  datatype ClassDecl = ClassDecl(
    name: string,
    modifiers: set<Modifier>,
    enclosingKind: ElementKind,
    annotations: seq<Annotation>,
    enclosed: seq<Member>)

  /** The constructors among the members, in their order (ElementFilter.constructorsIn). */
  function ConstructorsIn(members: seq<Member>): (r: seq<ConstructorDecl>)
    ensures |r| <= |members|
  {
    if members == [] then []
    else if members[0].ConstructorMember? then [members[0].ctor] + ConstructorsIn(members[1..])
    else ConstructorsIn(members[1..])
  }

  /** The methods among the members, in their order (ElementFilter.methodsIn). */
  function MethodsIn(members: seq<Member>): (r: seq<MethodDecl>)
    ensures |r| <= |members|
  {
    if members == [] then []
    else if members[0].MethodMember? then [members[0].methodDecl] + MethodsIn(members[1..])
    else MethodsIn(members[1..])
  }

  /** The filters keep exactly the constructors, respectively the methods, of the members. */
  lemma {:induction false} FiltersKeepTheirKind(members: seq<Member>)
    ensures forall c :: c in ConstructorsIn(members) <==> ConstructorMember(c) in members
    ensures forall m :: m in MethodsIn(members) <==> MethodMember(m) in members
  {
    if members != [] {
      FiltersKeepTheirKind(members[1..]);
      assert forall x :: x in members <==> x == members[0] || x in members[1..];
    }
  }

  /** Filtering distributes over concatenation, so adding members keeps the earlier constructors first. */
  lemma {:induction false} ConstructorsInDistributes(a: seq<Member>, b: seq<Member>)
    ensures ConstructorsIn(a + b) == ConstructorsIn(a) + ConstructorsIn(b)
  {
    if a != [] {
      assert (a + b)[1..] == a[1..] + b;
      ConstructorsInDistributes(a[1..], b);
    } else {
      assert a + b == b;
    }
  }

  /** Filtering distributes over concatenation, so adding members keeps the earlier methods first. */
  lemma {:induction false} MethodsInDistributes(a: seq<Member>, b: seq<Member>)
    ensures MethodsIn(a + b) == MethodsIn(a) + MethodsIn(b)
  {
    if a != [] {
      assert (a + b)[1..] == a[1..] + b;
      MethodsInDistributes(a[1..], b);
    } else {
      assert a + b == b;
    }
  }

  /** How many of the mirrors name the given annotation type. */
  function CountOf(mirrors: seq<Annotation>, annotationType: Annotation): (n: nat)
    ensures n <= |mirrors|
    ensures n == 0 <==> annotationType !in mirrors
  {
    if mirrors == [] then 0
    else (if mirrors[0] == annotationType then 1 else 0) + CountOf(mirrors[1..], annotationType)
  }

  /** Counting from position j is the verdict on mirror j plus the count from j + 1 on. */
  lemma CountOfStep(mirrors: seq<Annotation>, j: nat, annotationType: Annotation)
    requires j < |mirrors|
    ensures CountOf(mirrors[j..], annotationType)
      == (if mirrors[j] == annotationType then 1 else 0) + CountOf(mirrors[j + 1..], annotationType)
  {
    assert mirrors[j..][1..] == mirrors[j + 1..];
  }
}
