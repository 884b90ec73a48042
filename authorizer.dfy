/**
 * `Authority::Authorizer`: the class every application authorizer descends
 * from. An instance is built around one resource; its `<adjective>_by?(user)`
 * asks the class method of the same adjective, which asks `default`, which
 * calls the configured default strategy with the adjective, the authorizer
 * class itself and the user. An application authorizer may override any of
 * these per adjective.
 */
module Authorizer {
  import opened Wrappers
  import opened Objects
  import Configuration

  /** An application-defined class method `self.<adjective>_by?`: its arity and its decision from (user, options). */
  datatype ClassRule = ClassRule(arity: Arity, decide: (Obj, Options) -> bool)

  /** An application-defined instance method `<adjective>_by?`: its arity and its decision from (resource, user, options). */
  datatype InstanceRule = InstanceRule(arity: Arity, decide: (Obj, Obj, Options) -> bool)

  /** An authorizer class: its name as a constant, the adjective methods it
      defines or inherits from application authorizers above it, and an
      optional override of `self.default(adjective, user)`. */
  datatype AuthorizerClass = AuthorizerClass(
    name: string,
    classRules: map<string, ClassRule>,
    instanceRules: map<string, InstanceRule>,
    defaultRule: Option<(string, Obj) -> bool>)

  /** `authorizer_class.new(resource)`: the constructor stores the resource; `resource` reads it. */
  datatype AuthorizerInstance = AuthorizerInstance(cls: AuthorizerClass, resource: Obj)

  /** A subclass of `Authority::Authorizer` that overrides nothing. */
  function Plain(name: string): AuthorizerClass
  {
    AuthorizerClass(name, map[], map[], None)
  }

  function ArityMismatch(args: Args): Step<bool>
  {
    Step(Failure(ArgumentError(args.Count())), [])
  }

  /** `self.default(adjective, user)`: the configured strategy, called with the authorizer class itself. */
  function Default(strategy: Strategy, cls: AuthorizerClass, adjective: string, user: Obj): (s: Step<bool>)
    ensures s.result.Success?
    ensures Constructions(s.trace) == 0 && Constantizations(s.trace) == 0
  {
    match cls.defaultRule
    case Some(rule) => Step(Success(rule(adjective, user)), [])
    case None =>
      Step(Success(strategy(adjective, cls.name, user)),
           [Send(StrategyRecv, "call", [SymbolArg(adjective), ClassArg(cls.name), ObjArg(user)])])
  }

  /** Class-level `<adjective>_by?` invoked with `args`. The generated method takes the user alone. */
  function ClassBy(adjectives: seq<string>, strategy: Strategy, cls: AuthorizerClass, adjective: string, args: Args): (s: Step<bool>)
    ensures s.result.Failure? ==> s.result.error.ArgumentError? || s.result.error.NoMethodError?
    ensures Constructions(s.trace) == 0 && Constantizations(s.trace) == 0
  {
    if adjective in cls.classRules then
      var rule := cls.classRules[adjective];
      if !Accepts(rule.arity, args) then ArityMismatch(args)
      else Step(Success(rule.decide(args.first, args.OptionsOrEmpty())), [])
    else if adjective in adjectives then
      if !Accepts(One, args) then ArityMismatch(args)
      else
        var d := Default(strategy, cls, adjective, args.first);
        Step(d.result, [Send(AuthorizerClassRecv(cls.name), "default", [SymbolArg(adjective), ObjArg(args.first)])] + d.trace)
    else
      Step(Failure(NoMethodError(AuthorizerClassRecv(cls.name), BySelector(adjective))), [])
  }

  /** Instance-level `<adjective>_by?` invoked with `args`. The generated method takes the user alone and asks `self.class`. */
  function InstanceBy(adjectives: seq<string>, strategy: Strategy, inst: AuthorizerInstance, adjective: string, args: Args): (s: Step<bool>)
    ensures s.result.Failure? ==> s.result.error.ArgumentError? || s.result.error.NoMethodError?
    ensures Constructions(s.trace) == 0 && Constantizations(s.trace) == 0
  {
    var cls := inst.cls;
    if adjective in cls.instanceRules then
      var rule := cls.instanceRules[adjective];
      if !Accepts(rule.arity, args) then ArityMismatch(args)
      else Step(Success(rule.decide(inst.resource, args.first, args.OptionsOrEmpty())), [])
    else if adjective in adjectives then
      if !Accepts(One, args) then ArityMismatch(args)
      else
        var c := ClassBy(adjectives, strategy, cls, adjective, args);
        Step(c.result, [Send(AuthorizerClassRecv(cls.name), BySelector(adjective), args.ToList())] + c.trace)
    else
      Step(Failure(NoMethodError(AuthorizerRecv(cls.name, inst.resource), BySelector(adjective))), [])
  }

  // ---------------------------------------------------------------------
  // Lemmas

  /** The class method falls through to `default`, and `default` to the strategy with (adjective, this class, user). */
  lemma ClassAsksStrategy(adjectives: seq<string>, strategy: Strategy, cls: AuthorizerClass, adjective: string, user: Obj)
    requires adjective in adjectives && adjective !in cls.classRules && cls.defaultRule.None?
    ensures ClassBy(adjectives, strategy, cls, adjective, Args(user, None)).result == Success(strategy(adjective, cls.name, user))
    ensures ClassBy(adjectives, strategy, cls, adjective, Args(user, None)).trace ==
      [Send(AuthorizerClassRecv(cls.name), "default", [SymbolArg(adjective), ObjArg(user)]),
       Send(StrategyRecv, "call", [SymbolArg(adjective), ClassArg(cls.name), ObjArg(user)])]
  {
  }

  /** The instance method answers what `self.class.<adjective>_by?(user)` answers, after one send to the class. */
  lemma InstanceAsksClass(adjectives: seq<string>, strategy: Strategy, inst: AuthorizerInstance, adjective: string, user: Obj)
    requires adjective in adjectives && adjective !in inst.cls.instanceRules
    ensures InstanceBy(adjectives, strategy, inst, adjective, Args(user, None)).result
         == ClassBy(adjectives, strategy, inst.cls, adjective, Args(user, None)).result
    ensures InstanceBy(adjectives, strategy, inst, adjective, Args(user, None)).trace[0]
         == Send(AuthorizerClassRecv(inst.cls.name), BySelector(adjective), [ObjArg(user)])
  {
  }

  /** Under the default strategy an authorizer without overrides denies every adjective, at both levels;
      an options hash is refused by the one-argument generated methods. */
  lemma PlainDeniesByDefault(adjectives: seq<string>, name: string, resource: Obj, adjective: string, args: Args)
    requires adjective in adjectives
    ensures ClassBy(adjectives, Configuration.DefaultStrategy, Plain(name), adjective, args).result
         == if args.options.None? then Success(false) else Failure(ArgumentError(2))
    ensures InstanceBy(adjectives, Configuration.DefaultStrategy, AuthorizerInstance(Plain(name), resource), adjective, args).result
         == if args.options.None? then Success(false) else Failure(ArgumentError(2))
  {
  }

  /** Overriding only the class method changes the instance answer too, because the instance asks `self.class`. */
  lemma ClassOverrideDecidesInstance(adjectives: seq<string>, strategy: Strategy, inst: AuthorizerInstance, adjective: string, user: Obj)
    requires adjective in adjectives
    requires adjective in inst.cls.classRules && adjective !in inst.cls.instanceRules
    requires inst.cls.classRules[adjective].arity != Two
    ensures InstanceBy(adjectives, strategy, inst, adjective, Args(user, None)).result
         == Success(inst.cls.classRules[adjective].decide(user, map[]))
  {
  }

  /** An instance method override sees the resource the instance was built with. */
  lemma InstanceOverrideSeesResource(adjectives: seq<string>, strategy: Strategy, cls: AuthorizerClass, resource: Obj, adjective: string, args: Args)
    requires adjective in cls.instanceRules && Accepts(cls.instanceRules[adjective].arity, args)
    ensures InstanceBy(adjectives, strategy, AuthorizerInstance(cls, resource), adjective, args).result
         == Success(cls.instanceRules[adjective].decide(resource, args.first, args.OptionsOrEmpty()))
  {
  }
}
