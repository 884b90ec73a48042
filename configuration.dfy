/**
 * `Authority::Configuration`: the default strategy, the verb-to-adjective
 * abilities, the controller-action-to-verb map and the controller method
 * that yields the current user, set to their defaults on construction and
 * changed by the application's `configure` block.
 */
module Configuration {
  import opened Wrappers
  import opened Objects
  import opened RubyHash

  /** `Proc.new { |able, authorizer, user| false }`: deny by default. */
  function DefaultStrategy(able: string, authorizer: string, user: Obj): bool
  {
    false
  }

  function DefaultAbilities(): Hash<string, string>
  {
    Hash([("create", "creatable"), ("read", "readable"), ("update", "updatable"), ("delete", "deletable")])
  }

  function DefaultAuthorityActions(): Hash<Key, string>
  {
    Hash([(Sym("index"), "read"), (Sym("show"), "read"),
          (Sym("new"), "create"), (Sym("create"), "create"),
          (Sym("edit"), "update"), (Sym("update"), "update"),
          (Sym("destroy"), "delete")])
  }

  const DefaultUserMethod := "current_user"

  /** The observable state of a Configuration object. `abilitiesFrozen` is the
      frozen flag of the abilities Hash object the configuration holds. */
  datatype Settings = Settings(
    defaultStrategy: Strategy,
    abilities: Hash<string, string>,
    abilitiesFrozen: bool,
    authorityActions: Hash<Key, string>,
    userMethod: string)
  {
    /** Both Hashes have distinct keys, as every Ruby Hash does. */
    ghost predicate Valid() {
      abilities.Valid() && authorityActions.Valid()
    }
  }

  function Defaults(): Settings
  {
    Settings(DefaultStrategy, DefaultAbilities(), false, DefaultAuthorityActions(), DefaultUserMethod)
  }

  /** One statement of a `configure` block. */
  datatype ConfigEdit =
    | AddAbility(verb: string, adjective: string)   // config.abilities[verb] = adjective
    | SetDefaultStrategy(strategy: Strategy)        // config.default_strategy = proc
    | SetUserMethod(name: string)                   // config.user_method = name
    | PutAction(action: Key, verb: string)          // config.authority_actions[action] = verb

  /** The effect of one statement: writing into a frozen abilities Hash raises. */
  function Edit(s: Settings, e: ConfigEdit): (r: Result<Settings, Error>)
    ensures r.Failure? <==> e.AddAbility? && s.abilitiesFrozen
    ensures r.Failure? ==> r.error == FrozenError
    ensures r.Success? && s.Valid() ==> r.value.Valid()
  {
    PutValidAny(s.abilities);
    PutValidAny(s.authorityActions);
    match e
    case AddAbility(v, a) =>
      if s.abilitiesFrozen then Failure(FrozenError) else Success(s.(abilities := s.abilities.Put(v, a)))
    case SetDefaultStrategy(f) => Success(s.(defaultStrategy := f))
    case SetUserMethod(n) => Success(s.(userMethod := n))
    case PutAction(k, v) => Success(s.(authorityActions := s.authorityActions.Put(k, v)))
  }

  /** A block run statement by statement: the first exception ends it. */
  function EditAll(s: Settings, es: seq<ConfigEdit>): (r: (Settings, Option<Error>))
    ensures s.Valid() ==> r.0.Valid()
    decreases |es|
  {
    if |es| == 0 then (s, None)
    else match Edit(s, es[0])
      case Failure(err) => (s, Some(err))
      case Success(s') => EditAll(s', es[1..])
  }

  class Configuration {
    var defaultStrategy: Strategy
    var abilities: Hash<string, string>
    var abilitiesFrozen: bool
    var authorityActions: Hash<Key, string>
    var userMethod: string

    function Snapshot(): Settings
      reads this
    {
      Settings(defaultStrategy, abilities, abilitiesFrozen, authorityActions, userMethod)
    }

    ghost predicate Valid()
      reads this
    {
      Snapshot().Valid()
    }

    /** `Configuration.new` */
    constructor ()
      ensures Snapshot() == Defaults()
      ensures Valid()
    {
      DefaultAbilitiesContent();
      DefaultActionsValid();
      defaultStrategy := DefaultStrategy;
      abilities := DefaultAbilities();
      abilitiesFrozen := false;
      authorityActions := DefaultAuthorityActions();
      userMethod := DefaultUserMethod;
    }

    /** `abilities.freeze` */
    method FreezeAbilities()
      modifies this
      ensures Snapshot() == old(Snapshot()).(abilitiesFrozen := true)
      ensures old(Valid()) ==> Valid()
    {
      abilitiesFrozen := true;
    }

    /** One statement of a configure block, run against this object. */
    method Apply(e: ConfigEdit) returns (err: Option<Error>)
      requires Valid()
      modifies this
      ensures Valid()
      ensures Edit(old(Snapshot()), e).Success? ==> err.None? && Snapshot() == Edit(old(Snapshot()), e).value
      ensures Edit(old(Snapshot()), e).Failure? ==> err == Some(Edit(old(Snapshot()), e).error) && Snapshot() == old(Snapshot())
    {
      err := None;
      assert Edit(Snapshot(), e).Success? ==> Edit(Snapshot(), e).value.Valid();
      match e
      case AddAbility(v, a) =>
        if abilitiesFrozen {
          err := Some(FrozenError);
        } else {
          abilities := abilities.Put(v, a);
        }
      case SetDefaultStrategy(f) =>
        defaultStrategy := f;
      case SetUserMethod(n) =>
        userMethod := n;
      case PutAction(k, v) =>
        authorityActions := authorityActions.Put(k, v);
    }

    /** `yield(configuration)`: the block's statements in order, stopping at the first exception. */
    method ApplyAll(es: seq<ConfigEdit>) returns (err: Option<Error>)
      requires Valid()
      modifies this
      ensures Valid()
      ensures (Snapshot(), err) == EditAll(old(Snapshot()), es)
    {
      var i := 0;
      err := None;
      while i < |es|
        invariant 0 <= i <= |es|
        invariant err.None? && Valid()
        invariant EditAll(Snapshot(), es[i..]) == EditAll(old(Snapshot()), es)
        decreases |es| - i
      {
        assert es[i..][1..] == es[i + 1..];
        assert es[i..][0] == es[i];
        err := Apply(es[i]);
        if err.Some? {
          return;
        }
        i := i + 1;
      }
    }
  }

  // ---------------------------------------------------------------------
  // Lemmas

  /** The default strategy denies every (adjective, authorizer, user). */
  lemma DefaultStrategyDenies(able: string, authorizer: string, user: Obj)
    ensures !Defaults().defaultStrategy(able, authorizer, user)
  {
  }

  /** The default abilities are exactly create/read/update/delete with their adjectives, in that order. */
  lemma DefaultAbilitiesContent()
    ensures DefaultAbilities().Valid()
    ensures DefaultAbilities().Keys() == ["create", "read", "update", "delete"]
    ensures DefaultAbilities().Values() == ["creatable", "readable", "updatable", "deletable"]
    ensures DefaultAbilities().Get("read") == Some("readable")
    ensures DefaultAbilities().Get("update") == Some("updatable")
  {
    KeysValuesPaired(DefaultAbilities(), 1);
    KeysValuesPaired(DefaultAbilities(), 2);
    assert DefaultAbilities().Keys() == ["create", "read", "update", "delete"];
    assert DefaultAbilities().Values() == ["creatable", "readable", "updatable", "deletable"];
  }

  /** Every verb the default action map names is a verb of the default abilities. */
  lemma DefaultActionsUseDefaultVerbs(k: Key)
    requires k in DefaultAuthorityActions().Keys()
    ensures DefaultAuthorityActions().Get(k).value in DefaultAbilities().Keys()
  {
    DefaultAbilitiesContent();
    DefaultActionsContent();
    var v := DefaultAuthorityActions().Get(k).value;
    assert v in ["read", "read", "create", "create", "update", "update", "delete"];
  }

  /** The default map sends index/show to read, new/create to create, edit/update to update, destroy to delete;
      lookups go through `KeysValuesPaired`. */
  lemma DefaultActionsContent()
    ensures DefaultAuthorityActions().Valid()
    ensures DefaultAuthorityActions().Keys() ==
      [Sym("index"), Sym("show"), Sym("new"), Sym("create"), Sym("edit"), Sym("update"), Sym("destroy")]
    ensures DefaultAuthorityActions().Values() == ["read", "read", "create", "create", "update", "update", "delete"]
  {
    var h := DefaultAuthorityActions();
    DefaultActionsValid();
    assert h.Keys() == [Sym("index"), Sym("show"), Sym("new"), Sym("create"), Sym("edit"), Sym("update"), Sym("destroy")];
    assert h.Values() == ["read", "read", "create", "create", "update", "update", "delete"];
  }

  /** No action appears twice in the default map. */
  lemma DefaultActionsValid()
    ensures DefaultAuthorityActions().Valid()
  {
  }

  /** A pair added to unfrozen abilities is then visible, and the other verbs keep their adjectives. */
  lemma AddedAbilityVisible(s: Settings, verb: string, adjective: string, other: string)
    requires !s.abilitiesFrozen
    requires other != verb
    ensures Edit(s, AddAbility(verb, adjective)).Success?
    ensures Edit(s, AddAbility(verb, adjective)).value.abilities.Get(verb) == Some(adjective)
    ensures Edit(s, AddAbility(verb, adjective)).value.abilities.Get(other) == s.abilities.Get(other)
  {
    GetPut(s.abilities, verb, adjective, verb);
    GetPut(s.abilities, verb, adjective, other);
  }

  /** Once frozen, a block that writes to the abilities stops at that write with FrozenError, and the abilities are unchanged. */
  lemma {:induction false} FrozenAbilitiesRejectWrites(s: Settings, es: seq<ConfigEdit>)
    requires s.abilitiesFrozen
    requires exists i :: 0 <= i < |es| && es[i].AddAbility?
    ensures EditAll(s, es).1 == Some(FrozenError)
    ensures EditAll(s, es).0.abilities == s.abilities
    ensures EditAll(s, es).0.abilitiesFrozen
    decreases |es|
  {
    if !es[0].AddAbility? {
      var i :| 0 <= i < |es| && es[i].AddAbility?;
      assert es[1..][i - 1].AddAbility?;
      FrozenAbilitiesRejectWrites(Edit(s, es[0]).value, es[1..]);
    }
  }

  /** The customisation scenario: a fresh configuration's block adds `eat => edible`, which is then read back. */
  lemma CustomAbilityScenario()
    ensures EditAll(Defaults(), [AddAbility("eat", "edible")]).1 == None
    ensures EditAll(Defaults(), [AddAbility("eat", "edible")]).0.abilities.Get("eat") == Some("edible")
    ensures EditAll(Defaults(), [AddAbility("eat", "edible")]).0.abilities.Get("read") == Some("readable")
  {
    DefaultAbilitiesContent();
    AddedAbilityVisible(Defaults(), "eat", "edible", "read");
    AddedAbilityVisible(Defaults(), "eat", "edible", "eat"[..0]);
  }
}
