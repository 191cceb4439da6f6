/**
 What the rule engine promises, stated independently of how it walks the
 class: a declarative rule relation saying which diagnostics a class deserves,
 an order key saying where each one sits in the output, and message counts.
 */
module ValidationSpec {
  import opened Messages
  import opened Elements
  import opened Validation

  // ---------------------------------------------------------------------------
  // The rules, as a relation between a class and the diagnostics it deserves

  /** Diagnostic d is owed to class cls under one of the rules. */
  predicate Violation(cls: ClassDecl, d: Diagnostic) {
    var ctors := ConstructorsIn(cls.enclosed);
    var methods := MethodsIn(cls.enclosed);
    match d.target
    case OnClass(name) =>
      && name == cls.name
      && (|| (d.message == ClassFinal && Final in cls.modifiers)
          || (d.message == MissingNoArgConstructor && !HasVisibleNoArgConstructor(ctors))
          || (d.message == NestedClassNotStatic && IsNestedClass(cls) && Static !in cls.modifiers))
    case OnConstructor(name, i, j) =>
      name == cls.name && d.message == AutowiredConstructor && IsAutowiredMirror(ctors, i, j)
    case OnMethod(name, k) =>
      name == cls.name && k < |methods| && IsBeanMethod(methods[k]) && ViolatesBeanRule(methods[k], d.message)
  }

  /** The output holds exactly the diagnostics the rules call for. */
  lemma ValidateMatchesRules(cls: ClassDecl)
    ensures forall d :: d in Validate(cls) <==> Violation(cls, d)
  {
  }

  /** The rule engine never reports a @Bean method as lying outside a @Configuration class. */
  lemma ValidateNeverNotInConfiguration(cls: ClassDecl, d: Diagnostic)
    requires d in Validate(cls)
    ensures d.message != BeanMethodNotInConfiguration
  {
    ValidateMatchesRules(cls);
    assert Violation(cls, d);
  }

  // ---------------------------------------------------------------------------
  // Output order

  /**
   Where a diagnostic sits in the output: the class-final error first, then
   the @Autowired errors by constructor and mirror, then the missing no-arg
   constructor error, then the nested-class error, then the method
   diagnostics by method and, within one method, private, final, void,
   static, BeanFactoryPostProcessor.
   */
  function Key(d: Diagnostic): (nat, nat, nat)
  {
    match d.target
    case OnClass(_) =>
      (match d.message
       case ClassFinal => 0
       case MissingNoArgConstructor => 2
       case NestedClassNotStatic => 3
       case _ => 5, 0, 0)
    case OnConstructor(_, i, j) => (1, i, j)
    case OnMethod(_, k) =>
      (4, k,
       match d.message
       case BeanMethodPrivate => 0
       case BeanMethodFinal => 1
       case BeanMethodReturnsVoid => 2
       case StaticBeanMethod => 3
       case BfppBeanMethodNotStatic => 4
       case _ => 5)
  }

  /** x comes strictly before y in the output order. */
  predicate Before(x: Diagnostic, y: Diagnostic) {
    var a, b := Key(x), Key(y);
    a.0 < b.0 || (a.0 == b.0 && (a.1 < b.1 || (a.1 == b.1 && a.2 < b.2)))
  }

  /** Every diagnostic comes strictly before every later one. */
  predicate StrictlyOrdered(ds: seq<Diagnostic>) {
    forall a, b :: 0 <= a < b < |ds| ==> Before(ds[a], ds[b])
  }

  predicate NoDuplicates(ds: seq<Diagnostic>) {
    forall a, b :: 0 <= a < b < |ds| ==> ds[a] != ds[b]
  }

  lemma OrderedConcat(x: seq<Diagnostic>, y: seq<Diagnostic>)
    requires StrictlyOrdered(x) && StrictlyOrdered(y)
    requires forall p, q :: p in x && q in y ==> Before(p, q)
    ensures StrictlyOrdered(x + y)
  {
    var xy := x + y;
    forall a, b | 0 <= a < b < |xy| ensures Before(xy[a], xy[b]) {
      if b < |x| {
        assert xy[a] == x[a] && xy[b] == x[b];
      } else if a < |x| {
        assert xy[a] in x && xy[b] in y by {
          assert xy[a] == x[a] && xy[b] == y[b - |x|];
        }
      } else {
        assert xy[a] == y[a - |x|] && xy[b] == y[b - |x|];
      }
    }
  }

  lemma {:induction false} AutowiredChecksOrdered(className: string, ctors: seq<ConstructorDecl>, k: nat, j: nat)
    requires k < |ctors| && j <= |ctors[k].annotations|
    ensures StrictlyOrdered(AutowiredChecks(className, ctors, k, j))
    decreases |ctors[k].annotations| - j
  {
    if j < |ctors[k].annotations| {
      var head := if ctors[k].annotations[j] == AutowiredType
        then [Diagnostic(AutowiredConstructor, OnConstructor(className, k, j))] else [];
      var tail := AutowiredChecks(className, ctors, k, j + 1);
      AutowiredChecksOrdered(className, ctors, k, j + 1);
      OrderedConcat(head, tail);
    }
  }

  lemma {:induction false} ConstructorChecksOrdered(className: string, ctors: seq<ConstructorDecl>, k: nat, found: bool)
    requires k <= |ctors|
    ensures StrictlyOrdered(ConstructorChecks(className, ctors, k, found))
    decreases |ctors| - k
  {
    if k < |ctors| {
      var found' := found || (IsVisible(ctors[k]) && HasNoParameter(ctors[k]));
      var head := AutowiredChecks(className, ctors, k, 0);
      var tail := ConstructorChecks(className, ctors, k + 1, found');
      assert ConstructorChecks(className, ctors, k, found) == head + tail;
      AutowiredChecksOrdered(className, ctors, k, 0);
      ConstructorChecksOrdered(className, ctors, k + 1, found');
      forall p, q | p in head && q in tail ensures Before(p, q) {
        assert Key(p).0 == 1 && Key(p).1 == k;
        assert Key(q).0 == 2 || (Key(q).0 == 1 && Key(q).1 > k);
      }
      OrderedConcat(head, tail);
    }
  }

  lemma MethodChecksOrdered(className: string, k: nat, m: MethodDecl)
    ensures StrictlyOrdered(MethodChecks(className, k, m))
  {
    // Dafny also finds this proof alone, but only near its resource limit;
    // splitting the output into its four parts keeps it cheap.
    if IsBeanMethod(m) {
      var t := OnMethod(className, k);
      var p := if Private in m.modifiers then [Diagnostic(BeanMethodPrivate, t)] else [];
      var f := if Final in m.modifiers then [Diagnostic(BeanMethodFinal, t)] else [];
      var v := if m.returnsVoid then [Diagnostic(BeanMethodReturnsVoid, t)] else [];
      var w := BfppCheck(m, t);
      OrderedConcat(p, f);
      OrderedConcat(p + f, v);
      OrderedConcat(p + f + v, w);
    }
  }

  lemma {:induction false} MethodChecksFromOrdered(className: string, methods: seq<MethodDecl>, k: nat)
    requires k <= |methods|
    ensures StrictlyOrdered(MethodChecksFrom(className, methods, k))
    decreases |methods| - k
  {
    if k < |methods| {
      MethodChecksOrdered(className, k, methods[k]);
      MethodChecksFromOrdered(className, methods, k + 1);
      OrderedConcat(MethodChecks(className, k, methods[k]), MethodChecksFrom(className, methods, k + 1));
    }
  }

  /**
   The output follows the fixed order of the checks: class diagnostics before
   method diagnostics, and within each part the order of Key. Being strictly
   ordered, it never repeats a diagnostic.
   */
  lemma ValidateOrdered(cls: ClassDecl)
    ensures StrictlyOrdered(Validate(cls))
    ensures NoDuplicates(Validate(cls))
  {
    var ctors := ConstructorsIn(cls.enclosed);
    var fin := FinalClassCheck(cls);
    var cons := ConstructorChecks(cls.name, ctors, 0, false);
    var nested := StaticClassCheck(cls);
    var meths := MethodChecksFrom(cls.name, MethodsIn(cls.enclosed), 0);
    assert Validate(cls) == fin + cons + nested + meths;
    PartRanks(cls);
    ConstructorChecksOrdered(cls.name, ctors, 0, false);
    MethodChecksFromOrdered(cls.name, MethodsIn(cls.enclosed), 0);
    OrderedConcat(fin, cons);
    assert forall p :: p in fin + cons ==> Key(p).0 <= 2;
    OrderedConcat(fin + cons, nested);
    assert forall p :: p in fin + cons + nested ==> Key(p).0 <= 3;
    OrderedConcat(fin + cons + nested, meths);
  }

  /** The four parts of the checks occupy four consecutive ranges of the order. */
  lemma PartRanks(cls: ClassDecl)
    ensures forall d :: d in FinalClassCheck(cls) ==> Key(d).0 == 0
    ensures forall d :: d in ConstructorChecks(cls.name, ConstructorsIn(cls.enclosed), 0, false) ==> 1 <= Key(d).0 <= 2
    ensures forall d :: d in StaticClassCheck(cls) ==> Key(d).0 == 3
    ensures forall d :: d in MethodChecksFrom(cls.name, MethodsIn(cls.enclosed), 0) ==> Key(d).0 == 4
  {
  }

  // ---------------------------------------------------------------------------
  // The rules one by one

  /** The class-level rules, each as an if-and-only-if. */
  lemma ClassRules(cls: ClassDecl)
    ensures Diagnostic(ClassFinal, OnClass(cls.name)) in Validate(cls) <==> Final in cls.modifiers
    ensures Diagnostic(NestedClassNotStatic, OnClass(cls.name)) in Validate(cls)
        <==> IsNestedClass(cls) && Static !in cls.modifiers
    ensures cls.enclosingKind != Class ==> Diagnostic(NestedClassNotStatic, OnClass(cls.name)) !in Validate(cls)
    ensures Diagnostic(MissingNoArgConstructor, OnClass(cls.name)) in Validate(cls)
        <==> !HasVisibleNoArgConstructor(ConstructorsIn(cls.enclosed))
    ensures forall i: nat, j: nat ::
      var d := Diagnostic(AutowiredConstructor, OnConstructor(cls.name, i, j));
      d in Validate(cls) <==> IsAutowiredMirror(ConstructorsIn(cls.enclosed), i, j)
  {
    ValidateMatchesRules(cls);
  }

  /** The rules for one @Bean method, each as an if-and-only-if. */
  lemma BeanMethodRulesAt(cls: ClassDecl, k: nat)
    requires k < |MethodsIn(cls.enclosed)| && IsBeanMethod(MethodsIn(cls.enclosed)[k])
    ensures var m, t := MethodsIn(cls.enclosed)[k], OnMethod(cls.name, k);
      && (Diagnostic(BeanMethodPrivate, t) in Validate(cls) <==> Private in m.modifiers)
      && (Diagnostic(BeanMethodFinal, t) in Validate(cls) <==> Final in m.modifiers)
      && (Diagnostic(BeanMethodReturnsVoid, t) in Validate(cls) <==> m.returnsVoid)
      && (Diagnostic(StaticBeanMethod, t) in Validate(cls) <==> Static in m.modifiers && !m.returnAssignableToBfpp)
      && (Diagnostic(BfppBeanMethodNotStatic, t) in Validate(cls) <==> Static !in m.modifiers && m.returnAssignableToBfpp)
  {
    MethodRule(cls, k, BeanMethodPrivate);
    MethodRule(cls, k, BeanMethodFinal);
    MethodRule(cls, k, BeanMethodReturnsVoid);
    MethodRule(cls, k, StaticBeanMethod);
    MethodRule(cls, k, BfppBeanMethodNotStatic);
  }

  /** A method without a @Bean mirror gets no diagnostic at all. */
  lemma NonBeanMethodUnreported(cls: ClassDecl, k: nat)
    requires k < |MethodsIn(cls.enclosed)| && !IsBeanMethod(MethodsIn(cls.enclosed)[k])
    ensures forall d :: d in Validate(cls) ==> d.target != OnMethod(cls.name, k)
  {
    forall d | d in Validate(cls) ensures d.target != OnMethod(cls.name, k) {
      if d.target == OnMethod(cls.name, k) {
        MethodDiagnosticsComeFromMethodChecks(cls, d);
      }
    }
  }

  /** The method at position k gets the message exactly when it is a @Bean method breaking that message's rule. */
  lemma MethodRule(cls: ClassDecl, k: nat, msg: Message)
    requires k < |MethodsIn(cls.enclosed)|
    ensures Diagnostic(msg, OnMethod(cls.name, k)) in Validate(cls)
      <==> IsBeanMethod(MethodsIn(cls.enclosed)[k]) && ViolatesBeanRule(MethodsIn(cls.enclosed)[k], msg)
  {
    MethodDiagnosticsComeFromMethodChecks(cls, Diagnostic(msg, OnMethod(cls.name, k)));
  }

  /** Diagnostics on methods are produced by the method checks alone. */
  lemma MethodDiagnosticsComeFromMethodChecks(cls: ClassDecl, d: Diagnostic)
    requires d.target.OnMethod?
    ensures d in Validate(cls) <==> d in MethodChecksFrom(cls.name, MethodsIn(cls.enclosed), 0)
  {
    var ctors := ConstructorsIn(cls.enclosed);
    assert d !in FinalClassCheck(cls) + ConstructorChecks(cls.name, ctors, 0, false) + StaticClassCheck(cls);
  }

  /**
   A method never gets both warnings about static @Bean methods, and the
   diagnostics on methods carry only the five method-level messages.
   */
  lemma BeanMethodMessages(cls: ClassDecl)
    ensures forall k: nat ::
      !(Diagnostic(StaticBeanMethod, OnMethod(cls.name, k)) in Validate(cls)
        && Diagnostic(BfppBeanMethodNotStatic, OnMethod(cls.name, k)) in Validate(cls))
    ensures forall d :: d in Validate(cls) && d.target.OnMethod? ==>
      d.message in {BeanMethodPrivate, BeanMethodFinal, BeanMethodReturnsVoid, StaticBeanMethod, BfppBeanMethodNotStatic}
  {
    ValidateMatchesRules(cls);
  }

  // ---------------------------------------------------------------------------
  // How often each message is emitted

  /** How many of the diagnostics carry the message. */
  function Count(ds: seq<Diagnostic>, msg: Message): nat
  {
    if ds == [] then 0 else (if ds[0].message == msg then 1 else 0) + Count(ds[1..], msg)
  }

  lemma {:induction false} CountConcat(a: seq<Diagnostic>, b: seq<Diagnostic>, msg: Message)
    ensures Count(a + b, msg) == Count(a, msg) + Count(b, msg)
  {
    if a == [] {
      assert a + b == b;
    } else {
      assert (a + b)[1..] == a[1..] + b;
      CountConcat(a[1..], b, msg);
    }
  }

  lemma {:induction false} CountAbsent(ds: seq<Diagnostic>, msg: Message)
    requires forall d :: d in ds ==> d.message != msg
    ensures Count(ds, msg) == 0
  {
    if ds != [] {
      assert ds[0] in ds;
      assert forall d :: d in ds[1..] ==> d in ds;
      CountAbsent(ds[1..], msg);
    }
  }

  /** The @Autowired mirrors on the constructors from position k on. */
  function AutowiredMirrorsFrom(ctors: seq<ConstructorDecl>, k: nat): nat
    requires k <= |ctors|
    decreases |ctors| - k
  {
    if k == |ctors| then 0 else CountOf(ctors[k].annotations, AutowiredType) + AutowiredMirrorsFrom(ctors, k + 1)
  }

  lemma {:induction false} AutowiredChecksCount(className: string, ctors: seq<ConstructorDecl>, k: nat, j: nat)
    requires k < |ctors| && j <= |ctors[k].annotations|
    ensures Count(AutowiredChecks(className, ctors, k, j), AutowiredConstructor)
      == CountOf(ctors[k].annotations[j..], AutowiredType)
    decreases |ctors[k].annotations| - j
  {
    var mirrors := ctors[k].annotations;
    if j < |mirrors| {
      var head := if mirrors[j] == AutowiredType
        then [Diagnostic(AutowiredConstructor, OnConstructor(className, k, j))] else [];
      CountConcat(head, AutowiredChecks(className, ctors, k, j + 1), AutowiredConstructor);
      AutowiredChecksCount(className, ctors, k, j + 1);
      assert mirrors[j..][1..] == mirrors[j + 1..];
    }
  }

  /** The constructor checks emit one @Autowired error per @Autowired mirror. */
  lemma {:induction false} ConstructorChecksAutowiredCount(className: string, ctors: seq<ConstructorDecl>, k: nat, found: bool)
    requires k <= |ctors|
    ensures Count(ConstructorChecks(className, ctors, k, found), AutowiredConstructor)
      == AutowiredMirrorsFrom(ctors, k)
    decreases |ctors| - k
  {
    if k < |ctors| {
      var found' := found || (IsVisible(ctors[k]) && HasNoParameter(ctors[k]));
      var head := AutowiredChecks(className, ctors, k, 0);
      var tail := ConstructorChecks(className, ctors, k + 1, found');
      assert ConstructorChecks(className, ctors, k, found) == head + tail;
      CountConcat(head, tail, AutowiredConstructor);
      AutowiredChecksCount(className, ctors, k, 0);
      assert ctors[k].annotations[0..] == ctors[k].annotations;
      ConstructorChecksAutowiredCount(className, ctors, k + 1, found');
    }
  }

  /**
   The constructor checks emit the missing no-arg constructor error once,
   exactly when neither an earlier nor a later constructor is visible and
   parameterless.
   */
  lemma {:induction false} ConstructorChecksMissingCount(className: string, ctors: seq<ConstructorDecl>, k: nat, found: bool)
    requires k <= |ctors|
    ensures Count(ConstructorChecks(className, ctors, k, found), MissingNoArgConstructor)
      == if found || HasVisibleNoArgFrom(ctors, k) then 0 else 1
    decreases |ctors| - k
  {
    if k < |ctors| {
      var found' := found || (IsVisible(ctors[k]) && HasNoParameter(ctors[k]));
      var head := AutowiredChecks(className, ctors, k, 0);
      var tail := ConstructorChecks(className, ctors, k + 1, found');
      assert ConstructorChecks(className, ctors, k, found) == head + tail;
      CountConcat(head, tail, MissingNoArgConstructor);
      CountAbsent(head, MissingNoArgConstructor);
      assert Count(head + tail, MissingNoArgConstructor) == Count(tail, MissingNoArgConstructor);
      ConstructorChecksMissingCount(className, ctors, k + 1, found');
      NoArgFromStep(ctors, k);
      assert found || HasVisibleNoArgFrom(ctors, k) <==> found' || HasVisibleNoArgFrom(ctors, k + 1);
    } else {
      assert !HasVisibleNoArgFrom(ctors, k);
    }
  }

  /** A visible no-arg constructor from position k on is constructor k or one after it. */
  lemma NoArgFromStep(ctors: seq<ConstructorDecl>, k: nat)
    requires k < |ctors|
    ensures HasVisibleNoArgFrom(ctors, k)
      <==> (IsVisible(ctors[k]) && HasNoParameter(ctors[k])) || HasVisibleNoArgFrom(ctors, k + 1)
  {
    if HasVisibleNoArgFrom(ctors, k) && !(IsVisible(ctors[k]) && HasNoParameter(ctors[k])) {
      var i :| k <= i < |ctors| && IsVisible(ctors[i]) && HasNoParameter(ctors[i]);
      assert i != k;
    }
  }

  /**
   Each class-level message is emitted as often as the source emits it: the
   final and nested errors at most once, the missing no-arg constructor error
   exactly once when no constructor is visible and parameterless, one
   @Autowired error per @Autowired mirror, and never the error about @Bean
   methods outside @Configuration classes.
   */
  lemma ValidateCounts(cls: ClassDecl)
    ensures Count(Validate(cls), ClassFinal) == if Final in cls.modifiers then 1 else 0
    ensures Count(Validate(cls), NestedClassNotStatic)
      == if IsNestedClass(cls) && Static !in cls.modifiers then 1 else 0
    ensures Count(Validate(cls), MissingNoArgConstructor)
      == if HasVisibleNoArgConstructor(ConstructorsIn(cls.enclosed)) then 0 else 1
    ensures Count(Validate(cls), AutowiredConstructor) == AutowiredMirrorsFrom(ConstructorsIn(cls.enclosed), 0)
    ensures Count(Validate(cls), BeanMethodNotInConfiguration) == 0
  {
    FinalAndNestedCounts(cls);
    ConstructorErrorCounts(cls);
    NotInConfigurationCount(cls);
  }

  lemma FinalAndNestedCounts(cls: ClassDecl)
    ensures Count(Validate(cls), ClassFinal) == if Final in cls.modifiers then 1 else 0
    ensures Count(Validate(cls), NestedClassNotStatic)
      == if IsNestedClass(cls) && Static !in cls.modifiers then 1 else 0
  {
    ConstructorChecksOnlyConstructorMessages(cls.name, ConstructorsIn(cls.enclosed));
    MethodChecksOnlyMethodMessages(cls.name, MethodsIn(cls.enclosed));
    ClassCheckCounts(cls, ClassFinal);
    ClassCheckCounts(cls, NestedClassNotStatic);
    CountInValidate(cls, ClassFinal);
    CountInValidate(cls, NestedClassNotStatic);
  }

  lemma ConstructorErrorCounts(cls: ClassDecl)
    ensures Count(Validate(cls), MissingNoArgConstructor)
      == if HasVisibleNoArgConstructor(ConstructorsIn(cls.enclosed)) then 0 else 1
    ensures Count(Validate(cls), AutowiredConstructor) == AutowiredMirrorsFrom(ConstructorsIn(cls.enclosed), 0)
  {
    var ctors := ConstructorsIn(cls.enclosed);
    ConstructorChecksAutowiredCount(cls.name, ctors, 0, false);
    ConstructorChecksMissingCount(cls.name, ctors, 0, false);
    assert HasVisibleNoArgConstructor(ctors) == HasVisibleNoArgFrom(ctors, 0);
    MethodChecksOnlyMethodMessages(cls.name, MethodsIn(cls.enclosed));
    ClassCheckCounts(cls, MissingNoArgConstructor);
    ClassCheckCounts(cls, AutowiredConstructor);
    CountInValidate(cls, MissingNoArgConstructor);
    CountInValidate(cls, AutowiredConstructor);
  }

  lemma NotInConfigurationCount(cls: ClassDecl)
    ensures Count(Validate(cls), BeanMethodNotInConfiguration) == 0
  {
    ConstructorChecksOnlyConstructorMessages(cls.name, ConstructorsIn(cls.enclosed));
    MethodChecksOnlyMethodMessages(cls.name, MethodsIn(cls.enclosed));
    ClassCheckCounts(cls, BeanMethodNotInConfiguration);
    CountInValidate(cls, BeanMethodNotInConfiguration);
  }

  /** The final-class and nested-class checks emit their own message at most once and nothing else. */
  lemma ClassCheckCounts(cls: ClassDecl, msg: Message)
    ensures Count(FinalClassCheck(cls), msg) == if msg == ClassFinal && Final in cls.modifiers then 1 else 0
    ensures Count(StaticClassCheck(cls), msg)
      == if msg == NestedClassNotStatic && IsNestedClass(cls) && Static !in cls.modifiers then 1 else 0
  {
    assert FinalClassCheck(cls) != [] ==> FinalClassCheck(cls)[1..] == [];
    assert StaticClassCheck(cls) != [] ==> StaticClassCheck(cls)[1..] == [];
  }

  /** A message's count in the output is the sum of its counts in the four parts of the checks. */
  lemma CountInValidate(cls: ClassDecl, msg: Message)
    ensures Count(Validate(cls), msg)
      == Count(FinalClassCheck(cls), msg)
      + Count(ConstructorChecks(cls.name, ConstructorsIn(cls.enclosed), 0, false), msg)
      + Count(StaticClassCheck(cls), msg)
      + Count(MethodChecksFrom(cls.name, MethodsIn(cls.enclosed), 0), msg)
  {
    var fin := FinalClassCheck(cls);
    var cons := ConstructorChecks(cls.name, ConstructorsIn(cls.enclosed), 0, false);
    var nested := StaticClassCheck(cls);
    var meths := MethodChecksFrom(cls.name, MethodsIn(cls.enclosed), 0);
    assert Validate(cls) == fin + cons + nested + meths;
    CountOfParts(fin, cons, nested, meths, msg);
  }

  lemma ConstructorChecksOnlyConstructorMessages(className: string, ctors: seq<ConstructorDecl>)
    ensures Count(ConstructorChecks(className, ctors, 0, false), ClassFinal) == 0
    ensures Count(ConstructorChecks(className, ctors, 0, false), NestedClassNotStatic) == 0
    ensures Count(ConstructorChecks(className, ctors, 0, false), BeanMethodNotInConfiguration) == 0
  {
    var cons := ConstructorChecks(className, ctors, 0, false);
    CountAbsent(cons, ClassFinal);
    CountAbsent(cons, NestedClassNotStatic);
    CountAbsent(cons, BeanMethodNotInConfiguration);
  }

  lemma MethodChecksOnlyMethodMessages(className: string, methods: seq<MethodDecl>)
    ensures Count(MethodChecksFrom(className, methods, 0), ClassFinal) == 0
    ensures Count(MethodChecksFrom(className, methods, 0), NestedClassNotStatic) == 0
    ensures Count(MethodChecksFrom(className, methods, 0), MissingNoArgConstructor) == 0
    ensures Count(MethodChecksFrom(className, methods, 0), AutowiredConstructor) == 0
    ensures Count(MethodChecksFrom(className, methods, 0), BeanMethodNotInConfiguration) == 0
  {
    var meths := MethodChecksFrom(className, methods, 0);
    CountAbsent(meths, ClassFinal);
    CountAbsent(meths, NestedClassNotStatic);
    CountAbsent(meths, MissingNoArgConstructor);
    CountAbsent(meths, AutowiredConstructor);
    CountAbsent(meths, BeanMethodNotInConfiguration);
  }

  lemma CountOfParts(a: seq<Diagnostic>, b: seq<Diagnostic>, c: seq<Diagnostic>, d: seq<Diagnostic>, msg: Message)
    ensures Count(a + b + c + d, msg) == Count(a, msg) + Count(b, msg) + Count(c, msg) + Count(d, msg)
  {
    CountConcat(a, b, msg);
    CountConcat(a + b, c, msg);
    CountConcat(a + b + c, d, msg);
  }

  /**
   @Autowired mirrors do not change the no-arg verdict: two classes whose
   constructors agree on modifiers and parameter counts get the same number
   of missing no-arg constructor errors, whatever their annotations.
   */
  lemma AutowiredDoesNotAffectNoArgVerdict(cls: ClassDecl, other: ClassDecl)
    requires |ConstructorsIn(cls.enclosed)| == |ConstructorsIn(other.enclosed)|
    requires forall i :: 0 <= i < |ConstructorsIn(cls.enclosed)| ==>
      && ConstructorsIn(cls.enclosed)[i].modifiers == ConstructorsIn(other.enclosed)[i].modifiers
      && ConstructorsIn(cls.enclosed)[i].parameterCount == ConstructorsIn(other.enclosed)[i].parameterCount
    ensures Count(Validate(cls), MissingNoArgConstructor) == Count(Validate(other), MissingNoArgConstructor)
  {
    ValidateCounts(cls);
    ValidateCounts(other);
    var a, b := ConstructorsIn(cls.enclosed), ConstructorsIn(other.enclosed);
    if HasVisibleNoArgConstructor(a) {
      var i :| 0 <= i < |a| && IsVisible(a[i]) && HasNoParameter(a[i]);
      assert IsVisible(b[i]) && HasNoParameter(b[i]);
    }
    if HasVisibleNoArgConstructor(b) {
      var i :| 0 <= i < |b| && IsVisible(b[i]) && HasNoParameter(b[i]);
      assert IsVisible(a[i]) && HasNoParameter(a[i]);
    }
  }
}
