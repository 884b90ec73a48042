/**
 * `Authority::UserAbilities`, the mixin the user class includes. For every
 * verb of the vocabulary in force when the library's internals are loaded
 * it defines `can_<verb>?`, which asks the resource
 * `<adjective>_by?(self)` for the adjective the verb maps to.
 */
module UserAbilities {
  import opened Wrappers
  import opened Objects
  import opened RubyHash
  import opened Abilities

  /** `resource.<adjective>_by?(*args)`: model classes and their instances answer through
      the abilities mixin, every other object raises NoMethodError. */
  function ResourceBy(env: Env, resource: Obj, adjective: string, args: Args): (s: Step<bool>)
    ensures s.result.Failure? ==> !s.result.error.SecurityViolation?
    ensures Constructions(s.trace) <= 1
    ensures Constantizations(s.trace) == if (resource.ModelRef? || resource.Record?) && resource.model in env.models
      && adjective in env.Adjectives() && env.models[resource.model].memo.None? then 1 else 0
    ensures !(resource.ModelRef? || resource.Record?) || resource.model !in env.models ==>
      s == Step(Failure(NoMethodError(ObjRecv(resource), BySelector(adjective))), [])
  {
    match resource
    case ModelRef(m) =>
      if m in env.models then ClassBy(env, m, adjective, args.first, args.OptionsOrEmpty())
      else Step(Failure(NoMethodError(ObjRecv(resource), BySelector(adjective))), [])
    case Record(m, _, _) =>
      if m in env.models then InstanceBy(env, resource, adjective, args.first, args.OptionsOrEmpty())
      else Step(Failure(NoMethodError(ObjRecv(resource), BySelector(adjective))), [])
    case _ => Step(Failure(NoMethodError(ObjRecv(resource), BySelector(adjective))), [])
  }

  /** Whether `user` responds to `can_<verb>?`: it includes the mixin and the verb was in the vocabulary. */
  predicate Defines(env: Env, user: Obj, verb: string) {
    user.User? && verb in env.vocab.Keys()
  }

  /** `can_<verb>?(resource)` exactly as generated: it takes one argument, so a call
      with an options hash raises ArgumentError before anything is asked. */
  function CanAsWritten(env: Env, user: Obj, verb: string, args: Args): (s: Step<bool>)
    ensures s.result.Failure? ==> !s.result.error.SecurityViolation?
    ensures !Defines(env, user, verb) ==> s == Step(Failure(NoMethodError(ObjRecv(user), CanSelector(verb))), [])
    ensures Defines(env, user, verb) && args.Count() == 2 ==> s == Step(Failure(ArgumentError(2)), [])
  {
    if !Defines(env, user, verb) then
      Step(Failure(NoMethodError(ObjRecv(user), CanSelector(verb))), [])
    else if args.Count() != 1 then
      Step(Failure(ArgumentError(args.Count())), [])
    else
      var adjective := env.vocab.Get(verb).value;
      var fwd := Args(user, None);
      var r := ResourceBy(env, args.first, adjective, fwd);
      Step(r.result, [Send(ObjRecv(args.first), BySelector(adjective), fwd.ToList())] + r.trace)
  }

  /** `can_<verb>?(resource, options = {})` as its tests describe it: the options reach the
      resource's `<adjective>_by?` when they are not empty, and are left off otherwise. */
  function Can(env: Env, user: Obj, verb: string, args: Args): (s: Step<bool>)
    ensures s.result.Failure? ==> !s.result.error.SecurityViolation?
    ensures !Defines(env, user, verb) ==> s == Step(Failure(NoMethodError(ObjRecv(user), CanSelector(verb))), [])
    ensures Defines(env, user, verb) ==>
      |s.trace| > 0 && s.trace[0] == Send(ObjRecv(args.first), BySelector(env.vocab.Get(verb).value), Forward(user, args.OptionsOrEmpty()).ToList())
  {
    if !Defines(env, user, verb) then
      Step(Failure(NoMethodError(ObjRecv(user), CanSelector(verb))), [])
    else
      var adjective := env.vocab.Get(verb).value;
      var fwd := Forward(user, args.OptionsOrEmpty());
      var r := ResourceBy(env, args.first, adjective, fwd);
      Step(r.result, [Send(ObjRecv(args.first), BySelector(adjective), fwd.ToList())] + r.trace)
  }

  // ---------------------------------------------------------------------
  // Lemmas

  /** Without options the generated method and the one its tests describe behave alike. */
  lemma AgreeWithoutOptions(env: Env, user: Obj, verb: string, resource: Obj)
    ensures CanAsWritten(env, user, verb, Args(resource, None)) == Can(env, user, verb, Args(resource, None))
  {
  }

  /** The generated method loses every options hash: `can_read?(doc, {:size => 'wee'})` raises
      ArgumentError (2 for 1), where its tests expect `readable_by?(user, :size => 'wee')` to be sent. */
  lemma AsWrittenDropsOptions(env: Env, user: Obj, verb: string, resource: Obj, options: Options)
    requires Defines(env, user, verb) && options != map[]
    ensures CanAsWritten(env, user, verb, Args(resource, Some(options))).result == Failure(ArgumentError(2))
    ensures Can(env, user, verb, Args(resource, Some(options))).trace[0] ==
      Send(ObjRecv(resource), BySelector(env.vocab.Get(verb).value), [ObjArg(user), OptionsArg(options)])
  {
  }

  /** The user's answer is the resource's answer for the adjective the verb maps to: as written,
      for a call with the resource alone, and in the corrected form for any call. */
  lemma CanIsResourceAnswer(env: Env, user: Obj, verb: string, args: Args)
    requires Defines(env, user, verb)
    ensures env.vocab.Get(verb).Some?
    ensures CanAsWritten(env, user, verb, Args(args.first, None)).result ==
      ResourceBy(env, args.first, env.vocab.Get(verb).value, Args(user, None)).result
    ensures Can(env, user, verb, args).result ==
      ResourceBy(env, args.first, env.vocab.Get(verb).value, Forward(user, args.OptionsOrEmpty())).result
  {
  }
}
