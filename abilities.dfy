/**
 * `Authority::Abilities`, the mixin a model class includes. It gives the
 * class an `authorizer_name` (by default "ApplicationAuthorizer") and a
 * memoized `authorizer`, the constant that name resolves to. For every
 * adjective it gives the class and its instances `<adjective>_by?(user,
 * options = {})`: the class asks its authorizer class, an instance builds a
 * new authorizer around itself on every call and asks that. Options are
 * passed on only when they are not empty.
 */
module Abilities {
  import opened Wrappers
  import opened Objects
  import opened RubyHash
  import opened Authorizer

  const DefaultAuthorizerName := "ApplicationAuthorizer"

  /** A model class's `authorizer_name` and its `@authorizer` memo. */
  datatype ModelState = ModelState(authorizerName: string, memo: Option<AuthorizerClass>)

  /** What a check runs against: the vocabulary the methods were generated from,
      the configured default strategy, the model classes that include the mixin
      (by name), and the authorizer constants the application defines. */
  datatype Env = Env(
    vocab: Hash<string, string>,
    strategy: Strategy,
    models: map<string, ModelState>,
    authorizers: map<string, AuthorizerClass>)
  {
    function Adjectives(): seq<string> {
      vocab.Values()
    }
  }

  /** The value of `authorizer`: the memo if set, else `authorizer_name.constantize`,
      with a missing constant reported as NoAuthorizerError naming it. */
  function Resolve(st: ModelState, authorizers: map<string, AuthorizerClass>): (r: Result<AuthorizerClass, Error>)
    ensures r.Failure? <==> st.memo.None? && st.authorizerName !in authorizers
    ensures r.Failure? ==> r.error == NoAuthorizerError(st.authorizerName)
    ensures st.memo.None? && r.Success? ==> r.value == authorizers[st.authorizerName]
    ensures st.memo.Some? ==> r == Success(st.memo.value)
  {
    match st.memo
    case Some(a) => Success(a)
    case None =>
      if st.authorizerName in authorizers then Success(authorizers[st.authorizerName])
      else Failure(NoAuthorizerError(st.authorizerName))
  }

  /** The message of the NoAuthorizerError `authorizer` raises for `name`. */
  function NoAuthorizerMessage(name: string): (m: string)
    ensures |m| == |name| + 35 && m[..|name|] == name && m[|name|..] == " does not exist in your application"
  {
    name + " does not exist in your application"
  }

  /** The model class's state after `authorizer`: `@authorizer ||= ...` keeps a resolved class, and nothing on failure. */
  function Memoized(st: ModelState, authorizers: map<string, AuthorizerClass>): (st': ModelState)
    ensures st'.authorizerName == st.authorizerName
    ensures Resolve(st', authorizers) == Resolve(st, authorizers)
    ensures st'.memo.Some? <==> Resolve(st, authorizers).Success?
  {
    match Resolve(st, authorizers)
    case Success(a) => st.(memo := Some(a))
    case Failure(_) => st
  }

  /** The sends `authorizer` makes on `model`: the call itself, and `constantize` while nothing is memoized. */
  function AuthorizerTrace(model: string, st: ModelState): (t: seq<Event>)
    ensures Constantizations(t) == if st.memo.None? then 1 else 0
    ensures Constructions(t) == 0
  {
    var call := Send(ObjRecv(ModelRef(model)), "authorizer", []);
    var resolve := Send(NameRecv(st.authorizerName), "constantize", []);
    CountsOne(call);
    CountsOne(resolve);
    ConstructionsAppend([call], [resolve]);
    if st.memo.None? then [call] + [resolve] else [call]
  }

  /** Class-level `<adjective>_by?(user, options = {})` on the model class `model`. */
  function ClassBy(env: Env, model: string, adjective: string, user: Obj, options: Options): (s: Step<bool>)
    requires model in env.models
    ensures s.result.Failure? ==> !s.result.error.SecurityViolation?
    ensures Constructions(s.trace) == 0
    ensures Constantizations(s.trace) == if adjective in env.Adjectives() && env.models[model].memo.None? then 1 else 0
  {
    if adjective !in env.Adjectives() then
      Step(Failure(NoMethodError(ObjRecv(ModelRef(model)), BySelector(adjective))), [])
    else
      var st := env.models[model];
      var t := AuthorizerTrace(model, st);
      match Resolve(st, env.authorizers)
      case Failure(e) => Step(Failure(e), t)
      case Success(a) =>
        var args := Forward(user, options);
        var c := Authorizer.ClassBy(env.Adjectives(), env.strategy, a, adjective, args);
        ConstructionsAppend(t, [Send(AuthorizerClassRecv(a.name), BySelector(adjective), args.ToList())]);
        ConstructionsAppend(t + [Send(AuthorizerClassRecv(a.name), BySelector(adjective), args.ToList())], c.trace);
        Step(c.result, t + [Send(AuthorizerClassRecv(a.name), BySelector(adjective), args.ToList())] + c.trace)
  }

  /** Instance-level `<adjective>_by?(user, options = {})` on the model instance `resource`:
      `authorizer` builds `self.class.authorizer.new(self)` and the question goes to that new instance. */
  function InstanceBy(env: Env, resource: Obj, adjective: string, user: Obj, options: Options): (s: Step<bool>)
    requires resource.Record? && resource.model in env.models
    ensures s.result.Failure? ==> !s.result.error.SecurityViolation?
    ensures Constructions(s.trace) == if adjective in env.Adjectives() && Resolve(env.models[resource.model], env.authorizers).Success? then 1 else 0
    ensures Constantizations(s.trace) == if adjective in env.Adjectives() && env.models[resource.model].memo.None? then 1 else 0
  {
    if adjective !in env.Adjectives() then
      Step(Failure(NoMethodError(ObjRecv(resource), BySelector(adjective))), [])
    else
      var st := env.models[resource.model];
      var t := [Send(ObjRecv(resource), "authorizer", [])] + AuthorizerTrace(resource.model, st);
      ConstructionsAppend([Send(ObjRecv(resource), "authorizer", [])], AuthorizerTrace(resource.model, st));
      match Resolve(st, env.authorizers)
      case Failure(e) => Step(Failure(e), t)
      case Success(a) =>
        var inst := AuthorizerInstance(a, resource);
        var args := Forward(user, options);
        var i := Authorizer.InstanceBy(env.Adjectives(), env.strategy, inst, adjective, args);
        var build := Send(AuthorizerClassRecv(a.name), "new", [ObjArg(resource)]);
        var ask := Send(AuthorizerRecv(a.name, resource), BySelector(adjective), args.ToList());
        CountsOne(build);
        CountsOne(ask);
        ConstructionsAppend([build], [ask]);
        var sends := [build] + [ask];
        ConstructionsAppend(t, sends);
        ConstructionsAppend(t + sends, i.trace);
        Step(i.result, t + sends + i.trace)
  }

  /** A model class that includes the mixin: its name, `authorizer_name` and `@authorizer`. */
  class ModelClass {
    const name: string
    var authorizerName: string
    var memo: Option<AuthorizerClass>

    function State(): ModelState
      reads this
    {
      ModelState(authorizerName, memo)
    }

    /** `include Authority::Abilities`: `authorizer_name` starts as "ApplicationAuthorizer", nothing memoized. */
    constructor (name: string)
      ensures this.name == name
      ensures State() == ModelState(DefaultAuthorizerName, None)
    {
      this.name := name;
      authorizerName := DefaultAuthorizerName;
      memo := None;
    }

    /** `self.authorizer_name = n`: the memo is left as it is. */
    method SetAuthorizerName(n: string)
      modifies this
      ensures State() == old(State()).(authorizerName := n)
    {
      authorizerName := n;
    }

    /** `authorizer`: the memo, or the resolved constant, which is then memoized.
        `constantized` tells whether `constantize` ran. */
    method Authorizer(authorizers: map<string, AuthorizerClass>) returns (r: Result<AuthorizerClass, Error>, constantized: bool)
      modifies this
      ensures r == Resolve(old(State()), authorizers)
      ensures State() == Memoized(old(State()), authorizers)
      ensures constantized <==> old(memo).None?
    {
      if memo.Some? {
        r, constantized := Success(memo.value), false;
      } else {
        constantized := true;
        if authorizerName in authorizers {
          memo := Some(authorizers[authorizerName]);
          r := Success(authorizers[authorizerName]);
        } else {
          r := Failure(NoAuthorizerError(authorizerName));
        }
      }
    }
  }

  // ---------------------------------------------------------------------
  // Lemmas

  /** Once `authorizer` has succeeded, asking again gives the same class without resolving the name again,
      even after `authorizer_name` is changed. */
  lemma MemoSticks(st: ModelState, authorizers: map<string, AuthorizerClass>, newName: string)
    requires Resolve(st, authorizers).Success?
    ensures Resolve(Memoized(st, authorizers).(authorizerName := newName), authorizers) == Resolve(st, authorizers)
    ensures Constantizations(AuthorizerTrace("", Memoized(st, authorizers))) == 0
  {
  }

  /** An unresolvable name is a NoAuthorizerError naming it, and nothing is memoized, so the next call tries again. */
  lemma UnresolvableName(st: ModelState, authorizers: map<string, AuthorizerClass>)
    requires st.memo.None? && st.authorizerName !in authorizers
    ensures Resolve(st, authorizers) == Failure(NoAuthorizerError(st.authorizerName))
    ensures Memoized(st, authorizers) == st
  {
  }

  /** The class-level forwarding rule: one send of `<adjective>_by?` to the authorizer class,
      with `(user)` when the options are empty and `(user, options)` otherwise, whose answer is returned unchanged. */
  lemma ClassForwarding(env: Env, model: string, adjective: string, user: Obj, options: Options)
    requires model in env.models && adjective in env.Adjectives()
    requires Resolve(env.models[model], env.authorizers).Success?
    ensures var a := Resolve(env.models[model], env.authorizers).value;
      var s := ClassBy(env, model, adjective, user, options);
      var t := AuthorizerTrace(model, env.models[model]);
      && s.trace[|t|] == Send(AuthorizerClassRecv(a.name), BySelector(adjective),
                              if options == map[] then [ObjArg(user)] else [ObjArg(user), OptionsArg(options)])
      && s.result == Authorizer.ClassBy(env.Adjectives(), env.strategy, a, adjective, Forward(user, options)).result
  {
  }

  /** The instance-level forwarding rule: a new authorizer bound to this resource, then one send of
      `<adjective>_by?` to it with `(user)` or `(user, options)`, whose answer is returned unchanged. */
  lemma InstanceForwarding(env: Env, resource: Obj, adjective: string, user: Obj, options: Options)
    requires resource.Record? && resource.model in env.models && adjective in env.Adjectives()
    requires Resolve(env.models[resource.model], env.authorizers).Success?
    ensures var a := Resolve(env.models[resource.model], env.authorizers).value;
      var s := InstanceBy(env, resource, adjective, user, options);
      var n := 1 + |AuthorizerTrace(resource.model, env.models[resource.model])|;
      && s.trace[n] == Send(AuthorizerClassRecv(a.name), "new", [ObjArg(resource)])
      && s.trace[n + 1] == Send(AuthorizerRecv(a.name, resource), BySelector(adjective),
                                if options == map[] then [ObjArg(user)] else [ObjArg(user), OptionsArg(options)])
      && s.result == Authorizer.InstanceBy(env.Adjectives(), env.strategy, AuthorizerInstance(a, resource), adjective, Forward(user, options)).result
  {
  }

  /** Two instance-level checks, one after the other, build two authorizers: nothing is reused. */
  lemma TwoChecksTwoAuthorizers(env: Env, resource: Obj, adjective: string, user: Obj, options: Options)
    requires resource.Record? && resource.model in env.models && adjective in env.Adjectives()
    requires Resolve(env.models[resource.model], env.authorizers).Success?
    ensures var env' := env.(models := env.models[resource.model := Memoized(env.models[resource.model], env.authorizers)]);
      Constructions(InstanceBy(env, resource, adjective, user, options).trace
                    + InstanceBy(env', resource, adjective, user, options).trace) == 2
  {
    var env' := env.(models := env.models[resource.model := Memoized(env.models[resource.model], env.authorizers)]);
    ConstructionsAppend(InstanceBy(env, resource, adjective, user, options).trace, InstanceBy(env', resource, adjective, user, options).trace);
  }

  /** The second check on a model class resolves nothing: `constantize` runs at most once per class. */
  lemma SecondCheckDoesNotResolve(env: Env, model: string, adjective: string, user: Obj, options: Options)
    requires model in env.models && adjective in env.Adjectives()
    requires Resolve(env.models[model], env.authorizers).Success?
    ensures var env' := env.(models := env.models[model := Memoized(env.models[model], env.authorizers)]);
      && Constantizations(ClassBy(env', model, adjective, user, options).trace) == 0
      && ClassBy(env', model, adjective, user, options) .result == ClassBy(env, model, adjective, user, options).result
  {
    var env' := env.(models := env.models[model := Memoized(env.models[model], env.authorizers)]);
    var a := Resolve(env.models[model], env.authorizers).value;
    var args := Forward(user, options);
    var t := AuthorizerTrace(model, env'.models[model]);
    var c := Authorizer.ClassBy(env.Adjectives(), env.strategy, a, adjective, args);
    ConstructionsAppend(t, [Send(AuthorizerClassRecv(a.name), BySelector(adjective), args.ToList())]);
    ConstructionsAppend(t + [Send(AuthorizerClassRecv(a.name), BySelector(adjective), args.ToList())], c.trace);
  }
}
