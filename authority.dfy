/**
 * The `Authority` module itself: `enforce` and `action_authorized?`, the
 * vocabulary readers `abilities`, `verbs` and `adjectives` (which freeze the
 * abilities Hash), and `configure`, which runs the application's block and
 * then loads the library's internals, generating the methods from the
 * vocabulary in force at that moment.
 */
module Authority {
  import opened Wrappers
  import opened Objects
  import opened RubyHash
  import Configuration
  import opened Authorizer
  import opened Abilities
  import opened UserAbilities

  /** `action_authorized?(action, resource, user, options = {})`: `user.can_<action>?(resource)`,
      with the options appended only when they are not `{}`. The generated `can_<action>?` takes
      the resource alone, so appended options raise ArgumentError (2 for 1) there. */
  function ActionAuthorized(env: Env, action: string, resource: Obj, user: Obj, options: Options): (s: Step<bool>)
    ensures |s.trace| > 0
    ensures s.trace[0] == Send(ObjRecv(user), CanSelector(action),
                               if options == map[] then [ObjArg(resource)] else [ObjArg(resource), OptionsArg(options)])
    ensures s.result.Failure? ==> !s.result.error.SecurityViolation?
    ensures Defines(env, user, action) && options != map[] ==> s.result == Failure(ArgumentError(2)) && |s.trace| == 1
  {
    var args := Forward(resource, options);
    var c := CanAsWritten(env, user, action, args);
    Step(c.result, [Send(ObjRecv(user), CanSelector(action), args.ToList())] + c.trace)
  }

  /** `action_authorized?` over the corrected `can_<verb>?(resource, options = {})` of the Findings,
      which hands the options on to the resource. */
  function IntendedActionAuthorized(env: Env, action: string, resource: Obj, user: Obj, options: Options): (s: Step<bool>)
    ensures |s.trace| > 0
    ensures s.trace[0] == ActionAuthorized(env, action, resource, user, options).trace[0]
    ensures s.result.Failure? ==> !s.result.error.SecurityViolation?
    ensures options == map[] ==> s == ActionAuthorized(env, action, resource, user, options)
  {
    var args := Forward(resource, options);
    var c := Can(env, user, action, args);
    AgreeWithoutOptions(env, user, action, resource);
    Step(c.result, [Send(ObjRecv(user), CanSelector(action), args.ToList())] + c.trace)
  }

  /** The argument list `action_authorized?` builds: `[resource, options]`, with the last element
      popped off in place when it is `{}`. */
  method ResourceAndMaybeOptions(resource: Obj, options: Options) returns (args: seq<Arg>)
    ensures args == Forward(resource, options).ToList()
    ensures |args| == 1 <==> options == map[]
  {
    args := [ObjArg(resource), OptionsArg(options)];
    if args[|args| - 1] == OptionsArg(map[]) {
      args := args[..|args| - 1];
    }
  }

  /** What `enforce` makes of the check `a`: the resource on yes, SecurityViolation(user, action, resource)
      on no, and the check's own exception otherwise. */
  function Decide(a: Step<bool>, action: string, resource: Obj, user: Obj): (s: Step<Obj>)
    requires a.result.Failure? ==> !a.result.error.SecurityViolation?
    ensures s.trace == a.trace
    ensures s.result.Success? <==> a.result == Success(true)
    ensures s.result.Success? ==> s.result.value == resource
    ensures s.result.Failure? && s.result.error.SecurityViolation? <==> a.result == Success(false)
    ensures s.result.Failure? && s.result.error.SecurityViolation? ==> s.result.error == SecurityViolation(user, action, resource)
    ensures a.result.Failure? ==> s.result == Failure(a.result.error)
  {
    match a.result
    case Failure(e) => Step(Failure(e), a.trace)
    case Success(ok) =>
      if ok then Step(Success(resource), a.trace)
      else Step(Failure(SecurityViolation(user, action, resource)), a.trace)
  }

  /** `enforce(action, resource, user, options = {})`: the resource when the check says yes,
      a SecurityViolation carrying user, action and resource when it says no, and whatever
      the check raised otherwise. */
  function Enforcement(env: Env, action: string, resource: Obj, user: Obj, options: Options): (s: Step<Obj>)
    ensures s.trace == ActionAuthorized(env, action, resource, user, options).trace
    ensures s.result.Success? ==> s.result.value == resource
    ensures s.result.Success? <==> ActionAuthorized(env, action, resource, user, options).result == Success(true)
    ensures s.result.Failure? && s.result.error.SecurityViolation? <==>
      ActionAuthorized(env, action, resource, user, options).result == Success(false)
    ensures s.result.Failure? && s.result.error.SecurityViolation? ==>
      s.result.error == SecurityViolation(user, action, resource)
    ensures ActionAuthorized(env, action, resource, user, options).result.Failure? ==>
      s.result == Failure(ActionAuthorized(env, action, resource, user, options).result.error)
  {
    Decide(ActionAuthorized(env, action, resource, user, options), action, resource, user)
  }

  /** `enforce` over the corrected `can_<verb>?`: it agrees with `Enforcement` whenever no options are given. */
  function IntendedEnforcement(env: Env, action: string, resource: Obj, user: Obj, options: Options): (s: Step<Obj>)
    ensures s.trace == IntendedActionAuthorized(env, action, resource, user, options).trace
    ensures s.result.Success? <==> IntendedActionAuthorized(env, action, resource, user, options).result == Success(true)
    ensures s.result.Success? ==> s.result.value == resource
    ensures s.result.Failure? && s.result.error.SecurityViolation? <==>
      IntendedActionAuthorized(env, action, resource, user, options).result == Success(false)
    ensures options == map[] ==> s == Enforcement(env, action, resource, user, options)
  {
    Decide(IntendedActionAuthorized(env, action, resource, user, options), action, resource, user)
  }

  /** The model class whose `authorizer` a check calls, if it gets that far: only a check without
      options gets past `can_<action>?`. */
  function ConsultedModel(env: Env, action: string, resource: Obj, user: Obj, options: Options): (m: Option<string>)
    ensures m.Some? <==> Defines(env, user, action) && options == map[] && (resource.ModelRef? || resource.Record?)
                         && resource.model in env.models
    ensures m.Some? ==> m.value in env.models && m.value == resource.model
  {
    if Defines(env, user, action) && options == map[] && (resource.ModelRef? || resource.Record?) && resource.model in env.models then
      Some(resource.model)
    else None
  }

  /** The application's state: the configuration (nil until `configure`), the vocabulary the
      internals were generated from (none until they are loaded), the model classes that
      include the abilities mixin, and the authorizer constants. */
  class Runtime {
    var configuration: Option<Configuration.Configuration>
    var internals: Option<Hash<string, string>>
    var models: map<string, ModelClass>
    var authorizers: map<string, AuthorizerClass>

    /** The Hashes this state holds, the configuration's and the internals' vocabulary, have distinct keys. */
    ghost predicate Consistent()
      reads this, if configuration.Some? then {configuration.value} else {}
    {
      && (configuration.Some? ==> configuration.value.Valid())
      && (internals.Some? ==> internals.value.Valid())
    }

    /** Configured and loaded, with every model class registered under its own name. */
    ghost predicate Loaded()
      reads this, models.Values, if configuration.Some? then {configuration.value} else {}
    {
      Consistent() && configuration.Some? && internals.Some? && forall k :: k in models ==> models[k].name == k
    }

    /** What a check runs against now. */
    function Env(): Env
      requires configuration.Some? && internals.Some?
      reads this, configuration.value, models.Values
    {
      Abilities.Env(internals.value, configuration.value.defaultStrategy,
                    map k | k in models :: models[k].State(), authorizers)
    }

    /** The application before any `configure`. */
    constructor (models: map<string, ModelClass>, authorizers: map<string, AuthorizerClass>)
      ensures configuration.None? && internals.None?
      ensures Consistent()
      ensures this.models == models && this.authorizers == authorizers
    {
      configuration := None;
      internals := None;
      this.models := models;
      this.authorizers := authorizers;
    }

    /** `Authority.abilities`: `configuration.abilities.freeze`; NoMethodError on nil before any configuration. */
    method GetAbilities() returns (r: Result<Hash<string, string>, Error>)
      requires Consistent()
      modifies if configuration.Some? then {configuration.value} else {}
      ensures Consistent()
      ensures r.Success? ==> r.value.Valid()
      ensures configuration.None? ==> r == Failure(NoMethodError(ObjRecv(Nil), "abilities"))
      ensures configuration.Some? ==> r == Success(configuration.value.abilities)
      ensures configuration.Some? ==>
        configuration.value.Snapshot() == old(configuration.value.Snapshot()).(abilitiesFrozen := true)
    {
      match configuration
      case None => r := Failure(NoMethodError(ObjRecv(Nil), "abilities"));
      case Some(c) =>
        c.FreezeAbilities();
        r := Success(c.abilities);
    }

    /** `Authority.verbs`: the abilities' keys, freezing them. */
    method Verbs() returns (r: Result<seq<string>, Error>)
      requires Consistent()
      modifies if configuration.Some? then {configuration.value} else {}
      ensures Consistent()
      ensures configuration.None? ==> r == Failure(NoMethodError(ObjRecv(Nil), "abilities"))
      ensures configuration.Some? ==> r == Success(configuration.value.abilities.Keys())
      ensures r.Success? ==> forall i :: 0 <= i < |r.value| ==>
        configuration.value.abilities.Get(r.value[i]) == Some(configuration.value.abilities.Values()[i])
      ensures configuration.Some? ==>
        configuration.value.Snapshot() == old(configuration.value.Snapshot()).(abilitiesFrozen := true)
    {
      var a := GetAbilities();
      match a
      case Failure(e) => r := Failure(e);
      case Success(h) =>
        r := Success(h.Keys());
        forall i | 0 <= i < |r.value|
          ensures h.Get(r.value[i]) == Some(h.Values()[i])
        {
          KeysValuesPaired(h, i);
        }
    }

    /** `Authority.adjectives`: the abilities' values, freezing them. */
    method Adjectives() returns (r: Result<seq<string>, Error>)
      requires Consistent()
      modifies if configuration.Some? then {configuration.value} else {}
      ensures Consistent()
      ensures configuration.None? ==> r == Failure(NoMethodError(ObjRecv(Nil), "abilities"))
      ensures configuration.Some? ==> r == Success(configuration.value.abilities.Values())
      ensures r.Success? ==> forall i :: 0 <= i < |r.value| ==>
        configuration.value.abilities.Get(configuration.value.abilities.Keys()[i]) == Some(r.value[i])
      ensures configuration.Some? ==>
        configuration.value.Snapshot() == old(configuration.value.Snapshot()).(abilitiesFrozen := true)
    {
      var a := GetAbilities();
      match a
      case Failure(e) => r := Failure(e);
      case Success(h) =>
        r := Success(h.Values());
        forall i | 0 <= i < |r.value|
          ensures h.Get(h.Keys()[i]) == Some(r.value[i])
        {
          KeysValuesPaired(h, i);
        }
    }

    /** `configure { |config| ... }` with the block's statements `edits`: `configuration ||= Configuration.new`,
        the block, then the internals, loaded once, which freeze the abilities and generate
        the methods from them. An exception in the block ends `configure` before the internals. */
    method Configure(edits: seq<Configuration.ConfigEdit>) returns (r: Result<Configuration.Configuration, Error>)
      requires Consistent()
      modifies this, if configuration.Some? then {configuration.value} else {}
      ensures Consistent() && configuration.Some?
      ensures old(configuration).Some? ==> configuration == old(configuration)
      ensures old(configuration).None? ==> fresh(configuration.value)
      ensures models == old(models) && authorizers == old(authorizers)
      ensures var before := if old(configuration).Some? then old(configuration.value.Snapshot()) else Configuration.Defaults();
        var after := Configuration.EditAll(before, edits);
        if after.1.Some? then
          && r == Failure(after.1.value)
          && configuration.value.Snapshot() == after.0
          && internals == old(internals)
        else
          && r == Success(configuration.value)
          && configuration.value.Snapshot() == after.0.(abilitiesFrozen := after.0.abilitiesFrozen || old(internals).None?)
          && internals == (if old(internals).Some? then old(internals) else Some(after.0.abilities))
    {
      var c: Configuration.Configuration;
      if configuration.Some? {
        c := configuration.value;
      } else {
        c := new Configuration.Configuration();
        configuration := Some(c);
      }
      var err := c.ApplyAll(edits);
      if err.Some? {
        r := Failure(err.value);
        return;
      }
      if internals.None? {
        var vocab := GetAbilities();
        internals := Some(vocab.value);
      }
      r := Success(c);
    }

    /** `Authority.enforce(action, resource, user, options)` against the current state. Its one
        side effect is the consulted model class's `@authorizer` memo. */
    method Enforce(action: string, resource: Obj, user: Obj, options: Options) returns (r: Result<Obj, Error>, trace: seq<Event>)
      requires Loaded()
      modifies models.Values
      ensures Loaded()
      ensures Step(r, trace) == Enforcement(old(Env()), action, resource, user, options)
      ensures MemosAfter(this, old(Env().models), ConsultedModel(old(Env()), action, resource, user, options))
    {
      var env := Env();
      var s := Enforcement(env, action, resource, user, options);
      r, trace := s.result, s.trace;
      var consulted := ConsultedModel(env, action, resource, user, options);
      if consulted.Some? {
        var m := models[consulted.value];
        assert m.State() == env.models[consulted.value];
        var _, _ := m.Authorizer(authorizers);
      }
    }
  }

  /** The model classes' memo states after a check that consulted `consulted`, given their states `before`:
      the consulted class has had `authorizer` called, every other class is as it was. */
  ghost predicate MemosAfter(rt: Runtime, before: map<string, ModelState>, consulted: Option<string>)
    reads rt, rt.models.Values
  {
    forall k :: k in rt.models && k in before ==>
      rt.models[k].State() == if consulted == Some(k) then Memoized(before[k], rt.authorizers) else before[k]
  }

  // ---------------------------------------------------------------------
  // Lemmas

  /** A nil user (no one signed in) raises NoMethodError for `can_<action>?` and nothing further is asked. */
  lemma NilUserRaisesNoMethodError(env: Env, action: string, resource: Obj, options: Options)
    ensures Enforcement(env, action, resource, Nil, options) ==
      Step(Failure(NoMethodError(ObjRecv(Nil), CanSelector(action))),
           [Send(ObjRecv(Nil), CanSelector(action), Forward(resource, options).ToList())])
  {
  }

  /** An action that is not a verb of the vocabulary has no `can_` method. */
  lemma UnknownActionRaisesNoMethodError(env: Env, action: string, resource: Obj, user: Obj, options: Options)
    requires action !in env.vocab.Keys()
    ensures Enforcement(env, action, resource, user, options).result == Failure(NoMethodError(ObjRecv(user), CanSelector(action)))
  {
  }

  /** A class-level check no authorizer method overrides is decided by the default strategy,
      called with the adjective, the authorizer class and the user. */
  lemma StrategyDecidesClassCheck(env: Env, action: string, model: string, user: Obj)
    requires Defines(env, user, action) && model in env.models
    requires Resolve(env.models[model], env.authorizers).Success?
    requires var a := Resolve(env.models[model], env.authorizers).value;
      env.vocab.Get(action).value !in a.classRules && a.defaultRule.None?
    ensures var a := Resolve(env.models[model], env.authorizers).value;
      var adjective := env.vocab.Get(action).value;
      Enforcement(env, action, ModelRef(model), user, map[]).result ==
        if env.strategy(adjective, a.name, user) then Success(ModelRef(model))
        else Failure(SecurityViolation(user, action, ModelRef(model)))
  {
  }

  /** The same for a check on an instance: its authorizer instance asks the class, and the class the strategy. */
  lemma StrategyDecidesInstanceCheck(env: Env, action: string, resource: Obj, user: Obj)
    requires Defines(env, user, action) && resource.Record? && resource.model in env.models
    requires Resolve(env.models[resource.model], env.authorizers).Success?
    requires var a := Resolve(env.models[resource.model], env.authorizers).value;
      var adjective := env.vocab.Get(action).value;
      adjective !in a.instanceRules && adjective !in a.classRules && a.defaultRule.None?
    ensures var a := Resolve(env.models[resource.model], env.authorizers).value;
      var adjective := env.vocab.Get(action).value;
      Enforcement(env, action, resource, user, map[]).result ==
        if env.strategy(adjective, a.name, user) then Success(resource)
        else Failure(SecurityViolation(user, action, resource))
  {
  }

  /** With the configuration's default strategy and no overrides, every check fails: without options
      it raises SecurityViolation, with options `can_<action>?` raises ArgumentError. */
  lemma DefaultConfigurationDenies(env: Env, action: string, resource: Obj, user: Obj, options: Options)
    requires env.strategy == Configuration.DefaultStrategy
    requires Defines(env, user, action) && (resource.ModelRef? || resource.Record?) && resource.model in env.models
    requires Resolve(env.models[resource.model], env.authorizers).Success?
    requires var a := Resolve(env.models[resource.model], env.authorizers).value;
      var adjective := env.vocab.Get(action).value;
      (resource.Record? ==> adjective !in a.instanceRules) && adjective !in a.classRules && a.defaultRule.None?
    ensures Enforcement(env, action, resource, user, options).result ==
      if options == map[] then Failure(SecurityViolation(user, action, resource)) else Failure(ArgumentError(2))
  {
    if options == map[] {
      if resource.Record? {
        StrategyDecidesInstanceCheck(env, action, resource, user);
      } else {
        StrategyDecidesClassCheck(env, action, resource.model, user);
      }
    }
  }

  /** An instance rule of the authorizer that takes the user alone decides a check on that instance,
      seeing the resource and the user; with options the check raises ArgumentError before reaching it. */
  lemma InstanceRuleDecides(env: Env, action: string, resource: Obj, user: Obj, options: Options)
    requires Defines(env, user, action) && resource.Record? && resource.model in env.models
    requires Resolve(env.models[resource.model], env.authorizers).Success?
    requires var a := Resolve(env.models[resource.model], env.authorizers).value;
      var adjective := env.vocab.Get(action).value;
      adjective in a.instanceRules && Accepts(a.instanceRules[adjective].arity, Args(user, None))
    ensures var a := Resolve(env.models[resource.model], env.authorizers).value;
      var rule := a.instanceRules[env.vocab.Get(action).value];
      Enforcement(env, action, resource, user, options).result ==
        if options != map[] then Failure(ArgumentError(2))
        else if rule.decide(resource, user, map[]) then Success(resource)
        else Failure(SecurityViolation(user, action, resource))
  {
  }

  /** A class rule that takes the user alone decides a check on the model class; with options the
      check raises ArgumentError before reaching it. */
  lemma ClassRuleDecides(env: Env, action: string, model: string, user: Obj, options: Options)
    requires Defines(env, user, action) && model in env.models
    requires Resolve(env.models[model], env.authorizers).Success?
    requires var a := Resolve(env.models[model], env.authorizers).value;
      var adjective := env.vocab.Get(action).value;
      adjective in a.classRules && Accepts(a.classRules[adjective].arity, Args(user, None))
    ensures var a := Resolve(env.models[model], env.authorizers).value;
      var rule := a.classRules[env.vocab.Get(action).value];
      Enforcement(env, action, ModelRef(model), user, options).result ==
        if options != map[] then Failure(ArgumentError(2))
        else if rule.decide(user, map[]) then Success(ModelRef(model))
        else Failure(SecurityViolation(user, action, ModelRef(model)))
  {
  }

  /** Any options passed to `enforce` for a verb the user can check raise ArgumentError (2 for 1) at
      `can_<action>?`, whatever the authorizer defines; nothing else is sent and no memo is written. */
  lemma OptionsRaiseArgumentError(env: Env, action: string, resource: Obj, user: Obj, options: Options)
    requires Defines(env, user, action) && options != map[]
    ensures Enforcement(env, action, resource, user, options) ==
      Step(Failure(ArgumentError(2)), [Send(ObjRecv(user), CanSelector(action), [ObjArg(resource), OptionsArg(options)])])
    ensures ConsultedModel(env, action, resource, user, options).None?
  {
  }

  /** With the corrected `can_<verb>?`, options reach the authorizer: a class rule that accepts them
      decides the check, seeing the user and the options. */
  lemma IntendedOptionsReachTheRule(env: Env, action: string, model: string, user: Obj, options: Options)
    requires Defines(env, user, action) && model in env.models
    requires Resolve(env.models[model], env.authorizers).Success?
    requires var a := Resolve(env.models[model], env.authorizers).value;
      var adjective := env.vocab.Get(action).value;
      adjective in a.classRules && Accepts(a.classRules[adjective].arity, Forward(user, options))
    ensures var a := Resolve(env.models[model], env.authorizers).value;
      var rule := a.classRules[env.vocab.Get(action).value];
      IntendedEnforcement(env, action, ModelRef(model), user, options).result ==
        if rule.decide(user, options) then Success(ModelRef(model))
        else Failure(SecurityViolation(user, action, ModelRef(model)))
  {
  }

  /** A missing authorizer constant surfaces from `enforce` as NoAuthorizerError, not as a violation,
      when the check gets past `can_<action>?`, that is, when no options are given. */
  lemma MissingAuthorizerSurfaces(env: Env, action: string, resource: Obj, user: Obj, options: Options)
    requires Defines(env, user, action) && (resource.ModelRef? || resource.Record?) && resource.model in env.models
    requires var st := env.models[resource.model]; st.memo.None? && st.authorizerName !in env.authorizers
    ensures Enforcement(env, action, resource, user, options).result ==
      if options == map[] then Failure(NoAuthorizerError(env.models[resource.model].authorizerName))
      else Failure(ArgumentError(2))
  {
  }

  /** A check resolves an authorizer name at most once, and only for the consulted model class while its memo is empty. */
  lemma ResolvesAtMostOnce(env: Env, action: string, resource: Obj, user: Obj, options: Options)
    ensures var c := ConsultedModel(env, action, resource, user, options);
      Constantizations(Enforcement(env, action, resource, user, options).trace) ==
        if c.Some? && env.models[c.value].memo.None? then 1 else 0
  {
    var args := Forward(resource, options);
    var first := Send(ObjRecv(user), CanSelector(action), args.ToList());
    var c := CanAsWritten(env, user, action, args);
    CountsOne(first);
    ConstructionsAppend([first], c.trace);
    if Defines(env, user, action) && options == map[] {
      var adjective := env.vocab.Get(action).value;
      var fwd := Args(user, None);
      var ask := Send(ObjRecv(resource), BySelector(adjective), fwd.ToList());
      CountsOne(ask);
      ConstructionsAppend([ask], ResourceBy(env, resource, adjective, fwd).trace);
    }
  }

  /** After a check has memoized a model class's authorizer, no later check on that class resolves a name again. */
  lemma LaterChecksReuseTheMemo(env: Env, action: string, resource: Obj, user: Obj,
                                action2: string, resource2: Obj, user2: Obj, options2: Options)
    requires ConsultedModel(env, action, resource, user, map[]).Some?
    requires Resolve(env.models[resource.model], env.authorizers).Success?
    requires (resource2.ModelRef? || resource2.Record?) && resource2.model == resource.model
    ensures var env' := env.(models := env.models[resource.model := Memoized(env.models[resource.model], env.authorizers)]);
      Constantizations(Enforcement(env', action2, resource2, user2, options2).trace) == 0
  {
    var env' := env.(models := env.models[resource.model := Memoized(env.models[resource.model], env.authorizers)]);
    ResolvesAtMostOnce(env', action2, resource2, user2, options2);
  }

  /** The enforcement examples of the library's tests: an `ApplicationAuthorizer` whose class-level
      `readable_by?` is always true, under the default configuration, lets anyone read a model
      class that uses it, and lets no one update it. */
  lemma ReadAllowedUpdateDenied(user: Obj)
    requires user.User?
    ensures var env := ExampleEnv();
      && Enforcement(env, "read", ModelRef("AbilityModel"), user, map[]).result == Success(ModelRef("AbilityModel"))
      && Enforcement(env, "update", ModelRef("AbilityModel"), user, map[]).result ==
           Failure(SecurityViolation(user, "update", ModelRef("AbilityModel")))
  {
    var env := ExampleEnv();
    Configuration.DefaultAbilitiesContent();
    assert Defines(env, user, "read") && Defines(env, user, "update");
    ClassRuleDecides(env, "read", "AbilityModel", user, map[]);
    StrategyDecidesClassCheck(env, "update", "AbilityModel", user);
  }

  /** The test application: default vocabulary and strategy, one model class `AbilityModel` on the
      default authorizer name, and `ApplicationAuthorizer` overriding only class-level `readable_by?`. */
  function ExampleEnv(): Env {
    Abilities.Env(Configuration.DefaultAbilities(), Configuration.DefaultStrategy,
                  map["AbilityModel" := ModelState(DefaultAuthorizerName, None)],
                  map[DefaultAuthorizerName := AuthorizerClass(DefaultAuthorizerName,
                                                               map["readable" := ClassRule(One, (u, o) => true)],
                                                               map[], None)])
  }
}
