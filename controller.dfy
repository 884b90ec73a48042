/**
 * `Authority::Controller`, the mixin a controller class includes. The class
 * keeps its own copy of the action map (controller action to verb), made
 * from the configured map on first use and merged into by
 * `authority_actions`; `authorize_actions_for` also records which resource
 * the controller protects. Per request, `authorize_action_for` looks the
 * action up, finds the user, and calls `Authority.enforce`.
 */
module Controller {
  import opened Wrappers
  import opened Objects
  import opened RubyHash
  import Configuration
  import opened Abilities
  import opened Authority
  import opened Text

  /** `authority_resource`: a model class given directly, or the name of a controller
      instance method that returns the resource. It starts as nil. */
  datatype ResourceSetting = Given(obj: Obj) | Finder(name: string)

  /** The controller instance handling a request: the action name, and what each of
      its instance methods returns (the user method and any finder among them). */
  datatype Request = Request(actionName: string, methods: map<string, Obj>)

  /** `instance_authority_resource`: the stored class itself, or the value of the named
      method; a missing method becomes MissingResource. Sending something that is
      neither a Symbol nor a String (the unset nil, an instance) raises TypeError. */
  function InstanceAuthorityResource(setting: ResourceSetting, req: Request): (r: Result<Obj, Error>)
    ensures r.Success? <==> (setting.Given? && setting.obj.ModelRef?) || (setting.Finder? && setting.name in req.methods)
    ensures r.Success? && setting.Given? ==> r.value == setting.obj
    ensures r.Success? && setting.Finder? ==> r.value == req.methods[setting.name]
    ensures r.Failure? && setting.Finder? ==> r.error == MissingResource(setting.name)
    ensures r.Failure? && setting.Given? ==> r.error == TypeError(setting.obj)
  {
    match setting
    case Given(o) => if o.ModelRef? then Success(o) else Failure(TypeError(o))
    case Finder(n) => if n in req.methods then Success(req.methods[n]) else Failure(MissingResource(n))
  }

  /** `authority_user`: `send(config.user_method)`. */
  function AuthorityUser(userMethod: string, req: Request): (r: Result<Obj, Error>)
    ensures r.Success? <==> userMethod in req.methods
    ensures r.Success? ==> r.value == req.methods[userMethod]
    ensures r.Failure? ==> r.error == NoMethodError(ControllerRecv, userMethod)
  {
    if userMethod in req.methods then Success(req.methods[userMethod])
    else Failure(NoMethodError(ControllerRecv, userMethod))
  }

  /** `authority_action_map`: the memoized copy, or a copy of the configured map on first use. */
  function ActionMap(memo: Option<Hash<Key, string>>, configured: Hash<Key, string>): (m: Hash<Key, string>)
    ensures memo.None? ==> m == configured
    ensures memo.Some? ==> m == memo.value
  {
    memo.GetOr(configured)
  }

  /** `authority_action_map.merge!(actions.symbolize_keys)` as a value. */
  function MergedActions(current: Hash<Key, string>, actions: Hash<Key, string>): Hash<Key, string>
  {
    current.Merge(SymbolizeKeys(actions))
  }

  /** `MissingAction`'s message. */
  function MissingActionMessage(actionName: string): (m: string)
    ensures |m| == 32 + |actionName| && m[32..] == actionName
  {
    "No authority action defined for " + actionName
  }

  /** The three source lines of `MissingResource`'s message for the finder `name`. (Literals are
      written in short pieces, which the verifier can look into character by character.) */
  function MissingResourceLines(name: string): seq<string> {
    ["Trying to authorize " + "actions for '" + name + "', but can't.",
     "Must be either a " + "resource class OR the " + "name of a controller " + "instance method that",
     "returns one."]
  }

  /** The message text as its source lays it out: each line ends in an escaped line break, so the
      indentation of the next line stays in the string. */
  function MissingResourceText(name: string): string {
    Join(MissingResourceLines(name), Spaces(11))
  }

  /** `MissingResource`'s message: that text with every run of spaces squeezed to one. For a name
      without doubled spaces it is the three lines with one space between each two. */
  function MissingResourceMessage(name: string): (m: string)
    ensures NoDoubleSpace(m)
    ensures Unspaced(m) == Unspaced(MissingResourceText(name))
    ensures NoDoubleSpace(name) ==> m == Join(MissingResourceLines(name), " ")
  {
    SqueezeNoDoubleSpace(MissingResourceText(name));
    SqueezeKeepsText(MissingResourceText(name));
    if NoDoubleSpace(name) then MissingResourceSpaced(name); Squeeze(MissingResourceText(name))
    else Squeeze(MissingResourceText(name))
  }

  lemma MissingResourceSpaced(name: string)
    requires NoDoubleSpace(name)
    ensures Squeeze(MissingResourceText(name)) == Join(MissingResourceLines(name), " ")
  {
    var lines := MissingResourceLines(name);
    var p1, p2, p3 := "Trying to authorize ", "actions for '", "', but can't.";
    var b1, b2, b3, b4 := "Must be either a ", "resource class OR the ", "name of a controller ", "instance method that";
    var c := "returns one.";
    assert NoDoubleSpace(p1) && NoDoubleSpace(p2) && NoDoubleSpace(p3);
    assert NoDoubleSpace(b1) && NoDoubleSpace(b2) && NoDoubleSpace(b3) && NoDoubleSpace(b4) && NoDoubleSpace(c);
    NoDoubleSpaceJoin(p1, p2);
    NoDoubleSpaceJoin(p1 + p2, name);
    NoDoubleSpaceJoin(p1 + p2 + name, p3);
    NoDoubleSpaceJoin(b1, b2);
    NoDoubleSpaceJoin(b1 + b2, b3);
    NoDoubleSpaceJoin(b1 + b2 + b3, b4);
    assert Line(lines[0]) && Line(lines[1]) && Line(lines[2]);
    SqueezeJoin(lines, 11);
  }

  /** The source lines of the warning `authority_action` logs, the caller filled into the last. */
  function DeprecationLines(caller: string): seq<string> {
    ["Authority's `authority" + "_action` method has " + "been renamed",
     "to `authority_actions` " + "(plural) to reflect the " + "fact that you can",
     "set multiple actions in " + "one shot. Please update " + "your controllers",
     "accordingly. (called " + "from " + caller + ")"]
  }

  /** The warning `authority_action` logs: its text with every run of spaces squeezed to one. For a
      caller without doubled or leading spaces it is the four lines with one space between each two. */
  function DeprecationWarning(caller: string): (w: string)
    ensures NoDoubleSpace(w)
    ensures Unspaced(w) == Unspaced(Join(DeprecationLines(caller), Spaces(9)))
    ensures NoDoubleSpace(caller) && (|caller| == 0 || caller[0] != ' ') ==> w == Join(DeprecationLines(caller), " ")
  {
    SqueezeNoDoubleSpace(Join(DeprecationLines(caller), Spaces(9)));
    SqueezeKeepsText(Join(DeprecationLines(caller), Spaces(9)));
    if NoDoubleSpace(caller) && (|caller| == 0 || caller[0] != ' ') then
      DeprecationSpaced(caller); Squeeze(Join(DeprecationLines(caller), Spaces(9)))
    else Squeeze(Join(DeprecationLines(caller), Spaces(9)))
  }

  lemma DeprecationSpaced(caller: string)
    requires NoDoubleSpace(caller) && (|caller| == 0 || caller[0] != ' ')
    ensures Squeeze(Join(DeprecationLines(caller), Spaces(9))) == Join(DeprecationLines(caller), " ")
  {
    DeprecationHeadLines(caller);
    DeprecationTailLines(caller);
    SqueezeJoin(DeprecationLines(caller), 9);
  }

  lemma DeprecationHeadLines(caller: string)
    ensures |DeprecationLines(caller)| == 4
    ensures Line(DeprecationLines(caller)[0]) && Line(DeprecationLines(caller)[1])
  {
    var a1, a2, a3 := "Authority's `authority", "_action` method has ", "been renamed";
    var b1, b2, b3 := "to `authority_actions` ", "(plural) to reflect the ", "fact that you can";
    assert NoDoubleSpace(a1) && NoDoubleSpace(a2) && NoDoubleSpace(a3);
    assert NoDoubleSpace(b1) && NoDoubleSpace(b2) && NoDoubleSpace(b3);
    NoDoubleSpaceJoin(a1, a2);
    NoDoubleSpaceJoin(a1 + a2, a3);
    NoDoubleSpaceJoin(b1, b2);
    NoDoubleSpaceJoin(b1 + b2, b3);
  }

  lemma DeprecationTailLines(caller: string)
    requires NoDoubleSpace(caller) && (|caller| == 0 || caller[0] != ' ')
    ensures |DeprecationLines(caller)| == 4
    ensures Line(DeprecationLines(caller)[2]) && Line(DeprecationLines(caller)[3])
  {
    var c1, c2, c3 := "set multiple actions in ", "one shot. Please update ", "your controllers";
    var d1, d2 := "accordingly. (called ", "from ";
    assert NoDoubleSpace(c1) && NoDoubleSpace(c2) && NoDoubleSpace(c3);
    assert NoDoubleSpace(d1) && NoDoubleSpace(d2) && NoDoubleSpace(")");
    NoDoubleSpaceJoin(c1, c2);
    NoDoubleSpaceJoin(c1 + c2, c3);
    NoDoubleSpaceJoin(d1, d2);
    NoDoubleSpaceJoin(d1 + d2, caller);
    NoDoubleSpaceJoin(d1 + d2 + caller, ")");
  }

  /** `authorize_action_for(resource, *options)` for `req`: MissingAction when the action's
      symbol has no verb, before the user is looked up or anything is enforced; otherwise
      `Authority.enforce(verb, resource, authority_user, *options)`, which takes at most one
      options hash. */
  function Authorization(env: Env, actionMap: Hash<Key, string>, userMethod: string, req: Request,
                              resource: Obj, options: seq<Options>): (s: Step<Obj>)
    ensures actionMap.Get(Sym(req.actionName)).None? ==> s == Step(Failure(MissingAction(req.actionName)), [])
    ensures actionMap.Get(Sym(req.actionName)).Some? && AuthorityUser(userMethod, req).Failure? ==>
      s == Step(Failure(AuthorityUser(userMethod, req).error), [])
    ensures actionMap.Get(Sym(req.actionName)).Some? && AuthorityUser(userMethod, req).Success? && |options| > 1 ==>
      s == Step(Failure(ArgumentError(3 + |options|)), [])
    ensures actionMap.Get(Sym(req.actionName)).Some? && AuthorityUser(userMethod, req).Success? && |options| <= 1 ==>
      s == Enforcement(env, actionMap.Get(Sym(req.actionName)).value, resource, AuthorityUser(userMethod, req).value,
                       if |options| == 0 then map[] else options[0])
  {
    match actionMap.Get(Sym(req.actionName))
    case None => Step(Failure(MissingAction(req.actionName)), [])
    case Some(verb) =>
      match AuthorityUser(userMethod, req)
      case Failure(e) => Step(Failure(e), [])
      case Success(user) =>
        if |options| > 1 then Step(Failure(ArgumentError(3 + |options|)), [])
        else Enforcement(env, verb, resource, user, if |options| == 0 then map[] else options[0])
  }

  /** The model class whose memo `authorize_action_for` may write: the one `enforce` consults, if it is
      reached. Only a call with no options, or with `{}`, gets that far. */
  function ConsultedBy(env: Env, actionMap: Hash<Key, string>, userMethod: string, req: Request,
                       resource: Obj, options: seq<Options>): (m: Option<string>)
    ensures m.Some? ==> m.value in env.models && (resource.ModelRef? || resource.Record?) && resource.model == m.value
    ensures m.Some? ==> actionMap.Get(Sym(req.actionName)).Some? && AuthorityUser(userMethod, req).Success?
    ensures m.Some? ==> |options| == 0 || (|options| == 1 && options[0] == map[])
  {
    match actionMap.Get(Sym(req.actionName))
    case None => None
    case Some(verb) =>
      match AuthorityUser(userMethod, req)
      case Failure(_) => None
      case Success(user) =>
        if |options| > 1 then None else ConsultedModel(env, verb, resource, user, if |options| == 0 then map[] else options[0])
  }

  /** The deprecation logger, `Authority.logger`, as the warnings written to it. */
  class Logger {
    var warnings: seq<string>

    constructor ()
      ensures warnings == []
    {
      warnings := [];
    }

    method Warn(message: string)
      modifies this
      ensures warnings == old(warnings) + [message]
    {
      warnings := warnings + [message];
    }
  }

  /** A controller class that includes the mixin: its `authority_resource` and its `@authority_action_map`. */
  class ControllerClass {
    var authorityResource: ResourceSetting
    var actionMapMemo: Option<Hash<Key, string>>

    /** The memoized action map, once read, has distinct keys. */
    ghost predicate Valid()
      reads this
    {
      actionMapMemo.Some? ==> actionMapMemo.value.Valid()
    }

    constructor ()
      ensures authorityResource == Given(Nil) && actionMapMemo.None?
      ensures Valid()
    {
      authorityResource := Given(Nil);
      actionMapMemo := None;
    }

    /** `authority_action_map`: `@authority_action_map ||= config.authority_actions.dup`. The copy
        is a value, so later merges into it leave the configuration alone. */
    method AuthorityActionMap(config: Configuration.Configuration) returns (m: Hash<Key, string>)
      requires Valid() && config.Valid()
      modifies this
      ensures Valid() && m.Valid()
      ensures m == ActionMap(old(actionMapMemo), config.authorityActions)
      ensures actionMapMemo == Some(m)
      ensures authorityResource == old(authorityResource)
    {
      if actionMapMemo.None? {
        actionMapMemo := Some(config.authorityActions);
      }
      m := actionMapMemo.value;
    }

    /** `authority_actions(actions)`: merge the actions, keys symbolized, into this controller's map. */
    method AuthorityActions(config: Configuration.Configuration, actions: Hash<Key, string>)
      requires Valid() && config.Valid()
      modifies this
      ensures Valid()
      ensures actionMapMemo == Some(MergedActions(ActionMap(old(actionMapMemo), config.authorityActions), actions))
      ensures authorityResource == old(authorityResource)
      ensures config.Snapshot() == old(config.Snapshot())
    {
      var current := AuthorityActionMap(config);
      actionMapMemo := Some(current.Merge(SymbolizeKeys(actions)));
      MergedActionsGet(current, actions, "");
    }

    /** `authority_action(actions)`: the deprecated spelling; the same merge, after one warning. */
    method AuthorityAction(config: Configuration.Configuration, actions: Hash<Key, string>, logger: Logger, caller: string)
      requires Valid() && config.Valid()
      modifies this, logger
      ensures Valid()
      ensures actionMapMemo == Some(MergedActions(ActionMap(old(actionMapMemo), config.authorityActions), actions))
      ensures authorityResource == old(authorityResource)
      ensures logger.warnings == old(logger.warnings) + [DeprecationWarning(caller)]
    {
      logger.Warn(DeprecationWarning(caller));
      AuthorityActions(config, actions);
    }

    /** `authorize_actions_for(resource_or_finder, options)`: record what is protected and merge
        `options[:actions]`, or `{}` when there are none. Registering the before-filter is not modelled. */
    method AuthorizeActionsFor(config: Configuration.Configuration, setting: ResourceSetting, actions: Option<Hash<Key, string>>)
      requires Valid() && config.Valid()
      modifies this
      ensures Valid()
      ensures authorityResource == setting
      ensures actionMapMemo == Some(MergedActions(ActionMap(old(actionMapMemo), config.authorityActions), actions.GetOr(Empty())))
      ensures config.Snapshot() == old(config.Snapshot())
    {
      authorityResource := setting;
      AuthorityActions(config, actions.GetOr(Empty()));
    }

    /** `authorize_action_for(resource, *options)` on a request to this controller, against the application's state. */
    method AuthorizeActionFor(rt: Runtime, req: Request, resource: Obj, options: seq<Options>)
      returns (r: Result<Obj, Error>, trace: seq<Event>)
      requires rt.Loaded() && Valid()
      modifies this, rt.models.Values
      ensures rt.Loaded() && Valid()
      ensures actionMapMemo == Some(ActionMap(old(actionMapMemo), old(rt.configuration.value.authorityActions)))
      ensures authorityResource == old(authorityResource)
      ensures Step(r, trace) == Authorization(old(rt.Env()), actionMapMemo.value,
                                                   old(rt.configuration.value.userMethod), req, resource, options)
      ensures MemosAfter(rt, old(rt.Env().models), ConsultedBy(old(rt.Env()), actionMapMemo.value,
                                                               old(rt.configuration.value.userMethod), req, resource, options))
    {
      ghost var env := rt.Env();
      var m := AuthorityActionMap(rt.configuration.value);
      assert rt.Loaded() && rt.Env() == env;
      r, trace := AuthorizeWithMap(rt, m, req, resource, options);
    }

    /** The part of `authorize_action_for` after the map is read: it leaves this controller class alone. */
    method AuthorizeWithMap(rt: Runtime, m: Hash<Key, string>, req: Request, resource: Obj, options: seq<Options>)
      returns (r: Result<Obj, Error>, trace: seq<Event>)
      requires rt.Loaded()
      modifies rt.models.Values
      ensures rt.Loaded()
      ensures Step(r, trace) == Authorization(old(rt.Env()), m, rt.configuration.value.userMethod, req, resource, options)
      ensures MemosAfter(rt, old(rt.Env().models), ConsultedBy(old(rt.Env()), m, rt.configuration.value.userMethod, req, resource, options))
    {
      var verb := m.Get(Sym(req.actionName));
      if verb.None? {
        r, trace := Failure(MissingAction(req.actionName)), [];
        return;
      }
      var user := AuthorityUser(rt.configuration.value.userMethod, req);
      if user.Failure? {
        r, trace := Failure(user.error), [];
        return;
      }
      if |options| > 1 {
        r, trace := Failure(ArgumentError(3 + |options|)), [];
        return;
      }
      r, trace := rt.Enforce(verb.value, resource, user.value, if |options| == 0 then map[] else options[0]);
    }

    /** `run_authorization_check`, the before-filter: `authorize_action_for(instance_authority_resource)`. */
    method RunAuthorizationCheck(rt: Runtime, req: Request) returns (r: Result<Obj, Error>, trace: seq<Event>)
      requires rt.Loaded() && Valid()
      modifies this, rt.models.Values
      ensures rt.Loaded() && Valid()
      ensures authorityResource == old(authorityResource)
      ensures InstanceAuthorityResource(old(authorityResource), req).Failure? ==>
        && r == Failure(InstanceAuthorityResource(old(authorityResource), req).error) && trace == []
        && actionMapMemo == old(actionMapMemo)
        && MemosAfter(rt, old(rt.Env().models), None)
      ensures InstanceAuthorityResource(old(authorityResource), req).Success? ==>
        && actionMapMemo == Some(ActionMap(old(actionMapMemo), old(rt.configuration.value.authorityActions)))
        && Step(r, trace) == Authorization(old(rt.Env()), actionMapMemo.value, old(rt.configuration.value.userMethod),
                                                req, InstanceAuthorityResource(old(authorityResource), req).value, [])
        && MemosAfter(rt, old(rt.Env().models), ConsultedBy(old(rt.Env()), actionMapMemo.value, old(rt.configuration.value.userMethod),
                                                             req, InstanceAuthorityResource(old(authorityResource), req).value, []))
    {
      var resource := InstanceAuthorityResource(authorityResource, req);
      if resource.Failure? {
        r, trace := Failure(resource.error), [];
        return;
      }
      r, trace := AuthorizeActionFor(rt, req, resource.value, []);
    }
  }

  // ---------------------------------------------------------------------
  // Lemmas

  /** Merging decides each action by the merged hash when it names it, with String keys read as Symbols,
      and leaves every other action at its old verb. */
  lemma MergedActionsGet(current: Hash<Key, string>, actions: Hash<Key, string>, name: string)
    requires current.Valid()
    ensures MergedActions(current, actions).Valid()
    ensures MergedActions(current, actions).Get(Sym(name)) ==
      if LastWith(Symbolized(actions.entries), Sym(name)).Some? then LastWith(Symbolized(actions.entries), Sym(name))
      else current.Get(Sym(name))
    ensures MergedActions(current, actions).Get(Str(name)) == current.Get(Str(name))
  {
    SymbolizeKeysGet(actions, name);
    MergeGet(current, SymbolizeKeys(actions), Sym(name));
    MergeGet(current, SymbolizeKeys(actions), Str(name));
    LastWithIsGet(SymbolizeKeys(actions), Sym(name));
    assert Sym(name) in SymbolizeKeys(actions).Keys() <==> SymbolizeKeys(actions).Get(Sym(name)).Some?;
  }

  /** A Symbol-keyed action written with `authority_actions` is then the action's verb. */
  lemma {:induction false} MergedActionsOverride(current: Hash<Key, string>, action: string, verb: string)
    requires current.Valid()
    ensures MergedActions(current, Hash([(Sym(action), verb)])).Get(Sym(action)) == Some(verb)
  {
    var one := Hash([(Sym(action), verb)]);
    assert Symbolized(one.entries) == [(Sym(action), verb)];
    assert LastWith([(Sym(action), verb)], Sym(action)) == Some(verb);
    MergedActionsGet(current, one, action);
  }

  /** A request for an action the map lacks (`sculpt`) raises MissingAction and never reaches `enforce`. */
  lemma MissingActionNeverEnforces(env: Env, actionMap: Hash<Key, string>, userMethod: string, req: Request,
                                   resource: Obj, options: seq<Options>)
    requires Sym(req.actionName) !in actionMap.Keys()
    ensures Authorization(env, actionMap, userMethod, req, resource, options).result == Failure(MissingAction(req.actionName))
    ensures Authorization(env, actionMap, userMethod, req, resource, options).trace == []
    ensures ConsultedBy(env, actionMap, userMethod, req, resource, options).None?
  {
  }

  /** With the default map, `edit` is checked as `update`. */
  lemma EditChecksUpdate(env: Env, req: Request, resource: Obj)
    requires req.actionName == "edit" && Configuration.DefaultUserMethod in req.methods
    ensures Authorization(env, Configuration.DefaultAuthorityActions(), Configuration.DefaultUserMethod, req, resource, []) ==
      Enforcement(env, "update", resource, req.methods[Configuration.DefaultUserMethod], map[])
  {
    Configuration.DefaultActionsContent();
    KeysValuesPaired(Configuration.DefaultAuthorityActions(), 4);
  }
}
