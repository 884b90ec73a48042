# authority: a Dafny model of the authorization chain

`authority` is a Ruby gem for ORM-neutral authorization in Rails applications.
This project models its core, the chain one authorization check runs through:

- `Authority.enforce(action, resource, user, options)` asks `user.can_<action>?(resource)`.
  The options are appended only when they are not `{}`, and the generated `can_<action>?` then raises ArgumentError.
- The user asks the resource `<adjective>_by?(user)`, using the configured vocabulary (verb → adjective).
- A model class answers through its authorizer class. The class resolves its `authorizer_name` once and memoizes it.
- A model instance answers through a new authorizer instance built around itself on every call.
- The base `Authority::Authorizer` sends instance → class → `default` → the configured `default_strategy`.
  That strategy denies everything unless it is configured otherwise.
- A yes returns the resource. A no raises `SecurityViolation(user, action, resource)`.
- The configuration's vocabulary is frozen when the library's internals are loaded. The methods are generated from it at that moment.
- The controller mixin keeps a per-controller copy of the action → verb map. It merges into that copy, with keys symbolized.
- Per request the controller looks the action up, raising `MissingAction` if it has no verb, and then enforces.

Modules, one per source file plus three shared ones:

- `Wrappers`: the `Option` and `Result` types.
- `RubyHash`: an insertion-ordered Ruby `Hash` with `[]`, `[]=`, `merge!`, `keys`, `values` and ActiveSupport's `symbolize_keys`.
- `Text`: `String#squeeze(' ')`.
- `Objects`: the Ruby objects a check meets, the error taxonomy, and the trace a check leaves.
  - Objects are `nil`, a user, a model class, or a model instance.
  - The trace records each message send with its receiver, selector and argument list.
  - Argument counts, authorizer constructions and name resolutions can therefore be stated in contracts.
- `Configuration`, `Authorizer`, `Abilities`, `UserAbilities`, `SecurityViolation`, `Authority` and `Controller`: one for each of the library's files.

How the code is modelled:

- Delegating code is written as functions returning a `Step`: the result or exception, plus the trace.
  This covers `enforce`, the generated `can_` and `_by?` methods, `default` and `authorize_action_for`.
- Code that updates state is written as classes:
  - `Configuration.Configuration`, whose abilities Hash can be frozen.
  - `Abilities.ModelClass`, with `authorizer_name` and the `@authorizer` memo.
  - `Authority.Runtime`, the module-level state: the configuration, the vocabulary the internals were generated from, the model classes and the authorizer constants.
  - `Controller.ControllerClass`, with `authority_resource` and the `@authority_action_map` memo.
  - `Controller.Logger`.
- Each method's `ensures` ties the new state and result to the functions above. The lemmas are about those functions.
- Ruby's metaprogramming is modelled as lookups:
  - The methods generated by `class_eval` are dispatch over the vocabulary.
  - `constantize` is a lookup in a finite map from names to authorizer classes.
  - `send` to a missing method is a `NoMethodError`.
- An application authorizer is a descriptor holding its class-level and instance-level overrides per adjective.
  Each override has its Ruby arity and a decision function that may inspect the resource.
- Ruby Symbols in the vocabulary are modelled as strings.
  The controller's action map keeps the Symbol/String distinction, because `symbolize_keys` depends on it.

Where the library's tests and its code disagree, the model follows the code:

- `enforce` has no guard against a `nil` user. A `nil` user gets `NoMethodError` for `can_<action>?` (`Authority.NilUserRaisesNoMethodError`).
- The memo in `authorizer` is never invalidated. After a class has resolved its authorizer, changing `authorizer_name` has no effect on it (`Abilities.MemoSticks`).
- Some specs target APIs the code does not have, and none of these is modelled:
  - `SecurityTransgression` and `check_authorization_on`.
  - `Authority::ADJECTIVES`.
  - `default_strategy=` raising an error.
  - A default authorizer name of `AbilityModelAuthorizer`.
- `can_<verb>?` takes the resource alone, while its tests expect it to hand options on. The modelled `enforce` chain (`Authority.Enforcement`) is the code as written: any options other than `{}` raise ArgumentError (2 for 1) at `can_<verb>?`.
  The corrected chain that the tests describe is modelled beside it as `Authority.IntendedEnforcement` (see Findings).

In one place the model deliberately departs from the code:

- At lib/authority/controller.rb:57 `authority_action_map` reads `Authority.configuration.controller_action_map`.
  `Configuration` has no such method; its map is `authority_actions`. As written, the first `authority_action_map` call raises NoMethodError, and so does every controller check.
  The model reads the configured `authority_actions` instead (`Configuration.Configuration.authorityActions`), because that is evidently the map meant. The NoMethodError path is not modelled.

## Model

| member | source | states |
|---|---|---|
| Objects.Forward | lib/authority.rb:43-46 | The argument list carries the options only when they are not `{}`. It always starts with the given subject, and the callee sees exactly the options given. |
| RubyHash.KeysValuesPaired | lib/authority.rb:21-28 | `keys` and `values` of a Hash have equal length, and they are paired positionally: looking up the i-th key gives the i-th value. |
| RubyHash.GetPut | spec/authority/configuration_spec.rb:32-44 | After `h[k] = v`, `h[k]` is `v` and every other key reads as before. |
| RubyHash.MergeGet | lib/authority/controller.rb:41 | `a.merge!(b)` keeps distinct keys. A key of `b` reads as in `b`; every other key reads as in `a`. |
| RubyHash.SymbolizeKeysGet | lib/authority/controller.rb:41 | `symbolize_keys` leaves no String key. A Symbol key gets the last value given for that name under either spelling. |
| SecurityViolation.Message | lib/authority/security_violation.rb:11-13 | The message is the user's `to_s`, then " is not authorized to ", the action, " this resource: ", and the resource's `to_s`. Its length is the sum of those parts. |
| SecurityViolation.MessageDependsOnFields | lib/authority/security_violation.rb:5-13 | Two violations that agree on user, action and resource have the same message. |
| SecurityViolation.MessageDistinguishesActions | lib/authority/security_violation.rb:5-13 | Violations that differ only in the action have different messages. |
| Configuration.Configuration.constructor | lib/authority/configuration.rb:8-33 | A new configuration holds the default strategy, abilities, action map and user method, with its abilities not frozen. Both Hashes have distinct keys (`Valid`). |
| Configuration.DefaultStrategyDenies | lib/authority/configuration.rb:9-11 | The default strategy returns false for every (adjective, authorizer, user). |
| Configuration.DefaultAbilitiesContent | lib/authority/configuration.rb:13-18 | The default abilities are exactly create→creatable, read→readable, update→updatable and delete→deletable, in that order, with distinct keys. |
| Configuration.DefaultActionsContent | lib/authority/configuration.rb:20-28 | The default action map is index/show→read, new/create→create, edit/update→update and destroy→delete, keyed by Symbols, in that order. |
| Configuration.DefaultActionsValid | lib/authority/configuration.rb:20-28 | No action appears twice in the default action map. |
| Configuration.DefaultActionsUseDefaultVerbs | lib/authority/configuration.rb:13-28 | Every verb in the default action map is a key of the default abilities. |
| Configuration.Edit | lib/authority/configuration.rb:6 | A configure-block statement fails only when it writes into frozen abilities, and then it raises FrozenError. A successful statement keeps the keys of both Hashes distinct. |
| Configuration.EditAll | lib/authority.rb:54 | Running a configure block statement by statement keeps the keys of both Hashes distinct, whether or not a statement raises. |
| Configuration.Configuration.FreezeAbilities | lib/authority.rb:16-18 | `abilities.freeze` sets the frozen flag and changes nothing else. |
| Configuration.Configuration.Apply | lib/authority/configuration.rb:6 | One statement of a configure block sets the state `Edit` describes. On failure the state is left as it was and the error is returned. It keeps the keys of both Hashes distinct. |
| Configuration.Configuration.ApplyAll | lib/authority.rb:54 | Running the block gives the state and the first error `EditAll` describes. It stops at the first exception. It keeps the keys of both Hashes distinct. |
| Configuration.AddedAbilityVisible | spec/authority/configuration_spec.rb:29-47 | Adding a pair to abilities that are not frozen succeeds, makes the pair visible, and leaves every other verb's adjective unchanged. |
| Configuration.FrozenAbilitiesRejectWrites | lib/authority.rb:16-18 | Once the abilities are frozen, a block that writes to them ends with FrozenError. The abilities stay unchanged and frozen. |
| Configuration.CustomAbilityScenario | spec/authority/configuration_spec.rb:29-47 | A fresh configuration's block adding eat→edible succeeds. Afterwards `abilities[:eat]` is edible and read still maps to readable. |
| Authorizer.Default | lib/authority/authorizer.rb:35-37 | `default` always answers without raising and constructs nothing. Without an override it sends `call(adjective, class, user)` to the strategy. |
| Authorizer.ClassBy | lib/authority/authorizer.rb:27-33 | The class-level `<adjective>_by?` either answers or raises ArgumentError or NoMethodError. It never constructs an authorizer. |
| Authorizer.InstanceBy | lib/authority/authorizer.rb:17-24 | The instance-level `<adjective>_by?` either answers or raises ArgumentError or NoMethodError. It never constructs an authorizer. |
| Authorizer.ClassAsksStrategy | lib/authority/authorizer.rb:27-37 | A class method with no override answers `strategy(adjective, class, user)`. It does so after exactly the sends `default(adjective, user)` and `strategy.call(adjective, class, user)`. |
| Authorizer.InstanceAsksClass | lib/authority/authorizer.rb:17-24 | With no instance override, an instance answers what `self.class.<adjective>_by?(user)` answers. Its first send is that call. |
| Authorizer.PlainDeniesByDefault | lib/authority/authorizer.rb:35-37 | Under the default strategy, an authorizer with no overrides denies every adjective at both levels. An options hash raises ArgumentError. |
| Authorizer.ClassOverrideDecidesInstance | lib/authority/authorizer.rb:21 | Overriding only the class method also decides the instance-level answer. |
| Authorizer.InstanceOverrideSeesResource | lib/authority/authorizer.rb:11-15 | An instance override decides using the resource the instance was built with, the user and the options. |
| Abilities.Resolve | lib/authority/abilities.rb:35-39 | `authorizer` returns the memo if one is set. Otherwise it returns the constant named by `authorizer_name`. It fails (with NoAuthorizerError naming the constant) exactly when there is no memo and no such constant. |
| Abilities.NoAuthorizerMessage | lib/authority/abilities.rb:38 | The message is the name followed by " does not exist in your application". |
| Abilities.Memoized | lib/authority/abilities.rb:36 | After `authorizer` a memo is set exactly when resolution succeeded. Resolution gives the same answer afterwards, and the name is unchanged. |
| Abilities.AuthorizerTrace | lib/authority/abilities.rb:35-39 | `authorizer` sends `constantize` once while nothing is memoized, and not at all afterwards. It constructs nothing. |
| Abilities.ClassBy | lib/authority/abilities.rb:21-32 | A class-level check never raises SecurityViolation and constructs no authorizer. It resolves a name once when the memo is empty, and not at all when the memo is set. |
| Abilities.InstanceBy | lib/authority/abilities.rb:42-55 | An instance-level check constructs exactly one authorizer when the authorizer resolves and none otherwise. It never raises SecurityViolation. |
| Abilities.ModelClass.constructor | lib/authority/abilities.rb:14-17 | Including the mixin sets `authorizer_name` to "ApplicationAuthorizer" with nothing memoized. |
| Abilities.ModelClass.SetAuthorizerName | lib/authority/abilities.rb:15 | Setting `authorizer_name` changes only the name and leaves the memo alone. |
| Abilities.ModelClass.Authorizer | lib/authority/abilities.rb:35-39 | `authorizer` returns `Resolve` of the old state and leaves the state `Memoized` describes. It runs `constantize` exactly when nothing was memoized. |
| Abilities.MemoSticks | lib/authority/abilities.rb:36 | Once resolved, the class answers the same authorizer without resolving again, even after `authorizer_name` changes. |
| Abilities.UnresolvableName | lib/authority/abilities.rb:37-38 | An unknown name raises NoAuthorizerError naming it, and nothing is memoized. |
| Abilities.ClassForwarding | lib/authority/abilities.rb:24-30 | A class-level check sends `<adjective>_by?` to the authorizer class, with `(user)` when the options are empty and `(user, options)` otherwise. It returns that answer unchanged. |
| Abilities.InstanceForwarding | lib/authority/abilities.rb:45-55 | An instance-level check first sends `new(self)` to the authorizer class. Then it sends `<adjective>_by?` to that new instance, with `(user)` or `(user, options)`. It returns that answer unchanged. |
| Abilities.TwoChecksTwoAuthorizers | lib/authority/abilities.rb:53-55 | Two instance-level checks in a row construct two authorizers. |
| Abilities.SecondCheckDoesNotResolve | lib/authority/abilities.rb:36 | A second class-level check after the memo is set gives the same answer and runs no `constantize`. |
| UserAbilities.ResourceBy | lib/authority/user_abilities.rb:14 | Model classes and their instances answer `<adjective>_by?` through the mixin; any other object raises NoMethodError before sending anything. The call builds at most one authorizer and resolves a name exactly when it reaches a class with no memo. |
| UserAbilities.CanAsWritten | lib/authority/user_abilities.rb:11-17 | As generated, `can_<verb>?` raises NoMethodError for a user without the mixin or an unknown verb. Called with an options hash, it raises ArgumentError(2) before sending anything. |
| UserAbilities.Can | spec/authority/user_abilities_spec.rb:19-35 | The corrected `can_<verb>?(resource, options = {})` of the Findings. It exists exactly for users with the mixin and verbs in the vocabulary. Its first send is `<abilities[verb]>_by?` to the resource, with the user and any non-empty options. |
| UserAbilities.AgreeWithoutOptions | lib/authority/user_abilities.rb:13-15 | Without options, the generated method and the corrected one behave identically. |
| UserAbilities.AsWrittenDropsOptions | lib/authority/user_abilities.rb:13 | With options, the generated method raises ArgumentError(2), while the tests expect `<adjective>_by?(user, options)` to be sent. |
| UserAbilities.CanIsResourceAnswer | lib/authority/user_abilities.rb:13-15 | The user's answer to `can_<verb>?(resource)` is the resource's answer to `<adjective>_by?(user)` for the adjective the verb maps to, unmodified. The same holds for the corrected `Can`, with the options handed on. |
| Authority.ActionAuthorized | lib/authority.rb:43-46 | `action_authorized?` first sends `can_<action>?` to the user, with `(resource)` when the options are `{}` and `(resource, options)` otherwise. With options it raises ArgumentError(2) and sends nothing more. It never raises SecurityViolation itself. |
| Authority.IntendedActionAuthorized | lib/authority.rb:43-46 | `action_authorized?` over the corrected `can_<verb>?`: the same first send, never a SecurityViolation, and exactly `ActionAuthorized` when no options are given. |
| Authority.ResourceAndMaybeOptions | lib/authority.rb:44 | Building `[resource, options]` and popping a trailing `{}` gives one argument exactly when the options are empty. The result is the forwarding rule's list. |
| Authority.Decide | lib/authority.rb:37-40 | Given a check that raises no SecurityViolation, `enforce` returns the resource exactly on yes, raises `SecurityViolation(user, action, resource)` exactly on no, passes other exceptions through, and adds no sends. |
| Authority.Enforcement | lib/authority.rb:36-41 | `enforce` returns the resource unchanged exactly when the check says yes. It raises `SecurityViolation(user, action, resource)` exactly when the check says no, and it passes other exceptions through unchanged. Its trace is the check's. |
| Authority.IntendedEnforcement | lib/authority.rb:36-41 | `enforce` over the corrected check: the resource exactly on yes, SecurityViolation exactly on no, and exactly `Enforcement` when no options are given. |
| Authority.ConsultedModel | lib/authority/abilities.rb:36 | The model class whose `authorizer` a check reaches is the resource's own class. It is reached exactly when the user has the `can_` method, no options are given, and the resource is a registered model class or instance. |
| Authority.Runtime.constructor | lib/authority.rb:48-50 | Before `configure` there is no configuration and no generated vocabulary. The state is `Consistent`: every Hash it holds has distinct keys. |
| Authority.Runtime.GetAbilities | lib/authority.rb:16-18 | `abilities` returns the configuration's abilities and freezes them. With no configuration it raises NoMethodError on nil. The Hash returned has distinct keys. |
| Authority.Runtime.Verbs | lib/authority.rb:21-23 | `verbs` is the keys of the abilities, and reading them freezes those abilities. The abilities map the i-th verb to the i-th adjective. |
| Authority.Runtime.Adjectives | lib/authority.rb:26-28 | `adjectives` is the values of the abilities, and reading them freezes those abilities. The i-th adjective is what the abilities give for the i-th verb. |
| Authority.Runtime.Configure | lib/authority.rb:52-58 | `configure` creates a Configuration only if none exists and runs the block on it. On the first successful call it snapshots and freezes the vocabulary. It returns the current configuration. An exception in the block stops it before the internals are loaded. The state stays `Consistent`. |
| Authority.Runtime.Enforce | lib/authority.rb:36-41 | Enforcing on the current state gives exactly the result and trace of `Enforcement`. Its only side effect is the memo write of the model `ConsultedModel` names, which `MemosAfter` describes; a check with options writes none. |
| Authority.NilUserRaisesNoMethodError | lib/authority.rb:36-46 | A nil user raises NoMethodError for `can_<action>?`, and nothing further is sent. |
| Authority.UnknownActionRaisesNoMethodError | lib/authority/user_abilities.rb:11 | An action outside the vocabulary has no `can_` method, so `enforce` raises NoMethodError. |
| Authority.StrategyDecidesClassCheck | lib/authority/authorizer.rb:27-37 | With no override, `enforce` on a model class gives exactly what the default strategy decides for (adjective, authorizer class, user). |
| Authority.StrategyDecidesInstanceCheck | lib/authority/authorizer.rb:17-37 | With no override, `enforce` on a model instance gives exactly what the default strategy decides. |
| Authority.DefaultConfigurationDenies | lib/authority/configuration.rb:9-11 | Under the default strategy, with no overrides, every check on a model class or instance fails: without options it raises SecurityViolation, with options ArgumentError(2). |
| Authority.InstanceRuleDecides | lib/authority/abilities.rb:45-55 | An instance override taking the user alone decides `enforce` without options, using the resource and the user. With options `enforce` raises ArgumentError(2) before reaching it. |
| Authority.ClassRuleDecides | lib/authority/abilities.rb:24-30 | A class override taking the user alone decides `enforce` on the model class without options. With options `enforce` raises ArgumentError(2) before reaching it. |
| Authority.OptionsRaiseArgumentError | lib/authority/user_abilities.rb:13 | For a verb the user can check, any options other than `{}` make `enforce` raise ArgumentError(2) at `can_<verb>?`, whatever the authorizer defines. Nothing after that send happens and no memo is written. |
| Authority.IntendedOptionsReachTheRule | spec/authority/integration_spec.rb:19-24 | With the corrected `can_<verb>?`, a class override that accepts the options decides `enforce`, seeing the user and the options. |
| Authority.MissingAuthorizerSurfaces | lib/authority/abilities.rb:37-38 | An unresolvable authorizer name surfaces from `enforce` without options as NoAuthorizerError, never as a violation. With options the check raises ArgumentError(2) first. |
| Authority.ResolvesAtMostOnce | lib/authority/abilities.rb:36 | One `enforce` runs `constantize` at most once: once when the consulted class has no memo, and never otherwise (so never with options). |
| Authority.LaterChecksReuseTheMemo | lib/authority/abilities.rb:36 | After a check has memoized a class's authorizer, no later check on that class or its instances resolves a name. |
| Authority.ReadAllowedUpdateDenied | spec/authority_spec.rb:41-55 | With `ApplicationAuthorizer` allowing only class-level `readable_by?`, enforcing read returns the model class. Enforcing update raises SecurityViolation. |
| Text.Squeeze | lib/authority/controller.rb:48 | Squeezing never lengthens a string and keeps its first character. `SqueezeCollapse` and `SqueezeFixes` together determine the result. |
| Text.SqueezeNoDoubleSpace | lib/authority/controller.rb:48 | After `squeeze(' ')` no two spaces are adjacent. |
| Text.SqueezeKeepsText | lib/authority/controller.rb:48 | `squeeze(' ')` removes only spaces: the other characters stay, in order. |
| Text.SqueezeIdempotent | lib/authority/controller.rb:48 | Squeezing twice is the same as squeezing once. |
| Text.SqueezeCollapse | lib/authority/controller.rb:48 | Replacing two adjacent spaces by one anywhere in a string does not change what it squeezes to. |
| Text.SqueezeFixes | lib/authority/controller.rb:48 | A string with no two adjacent spaces squeezes to itself. |
| Text.SqueezeRun | lib/authority/controller.rb:45-48 | A run of one or more spaces squeezes as a single space does. |
| Text.SqueezeJoin | lib/authority/controller.rb:100-104 | Lines without double or edge spaces, separated by runs of spaces (escaped line breaks plus indentation), squeeze to the lines separated by single spaces. |
| Controller.InstanceAuthorityResource | lib/authority/controller.rb:96-105 | A stored class is returned as it is. A finder that exists returns its value, and one that does not raises MissingResource naming it. Anything else stored (the unset nil, an instance) raises TypeError. |
| Controller.AuthorityUser | lib/authority/controller.rb:111-113 | The user is the value of the configured user method. A missing method raises NoMethodError on the controller. |
| Controller.ActionMap | lib/authority/controller.rb:56-58 | The action map is the memo if one is set, and otherwise the configured map. |
| Controller.MissingActionMessage | lib/authority/controller.rb:75 | The message is "No authority action defined for " followed by the action name. |
| Controller.MissingResourceMessage | lib/authority/controller.rb:100-104 | The message has no double spaces and keeps the text's other characters. For a finder name without double spaces it is exactly the three source lines joined by single spaces. |
| Controller.DeprecationWarning | lib/authority/controller.rb:45-48 | The warning has no double spaces and keeps the text's other characters. For a caller without double or leading spaces it is exactly the four source lines, the caller filled in, joined by single spaces. |
| Controller.Authorization | lib/authority/controller.rb:71-78 | An action with no verb raises MissingAction before anything is sent. A missing user method raises NoMethodError. More than one options hash raises ArgumentError. Otherwise the outcome is exactly `enforce(verb, resource, user, options)`. |
| Controller.ConsultedBy | lib/authority/controller.rb:71-78 | A memo is written only when the action has a verb, the user is found, and `enforce` is reached with no options or with `{}`. It is then the resource's class. |
| Controller.Logger.constructor | lib/authority/configuration.rb:32 | A new logger holds no warnings. |
| Controller.Logger.Warn | lib/authority/controller.rb:45 | `warn` appends the message. |
| Controller.ControllerClass.constructor | lib/authority/controller.rb:16-19 | A controller class starts with `authority_resource` nil and no action map copy. |
| Controller.ControllerClass.AuthorityActionMap | lib/authority/controller.rb:56-58 | `authority_action_map` returns the memo, or a copy of the configured map, which it memoizes. `authority_resource` is unchanged. The map returned and the controller's memo have distinct keys (`Valid`). |
| Controller.ControllerClass.AuthorityActions | lib/authority/controller.rb:40-42 | `authority_actions` merges the given map, with keys symbolized, into the controller's map. The configuration is unchanged. The merged memo keeps distinct keys. |
| Controller.ControllerClass.AuthorityAction | lib/authority/controller.rb:44-50 | `authority_action` has the same effect on the map as `authority_actions`. In addition it logs exactly one warning, the squeezed deprecation text. |
| Controller.ControllerClass.AuthorizeActionsFor | lib/authority/controller.rb:31-35 | `authorize_actions_for` records the resource or finder and merges `options[:actions]`, or `{}` when there are none. The configuration is unchanged. |
| Controller.ControllerClass.AuthorizeActionFor | lib/authority/controller.rb:71-78 | `authorize_action_for` reads the action map (memoizing it) and then gives exactly the result and trace of `Authorization`. The model memos change only as `ConsultedBy` names. |
| Controller.ControllerClass.AuthorizeWithMap | lib/authority/controller.rb:73-77 | Given the action map, the lookup, the user and the `enforce` call give exactly the outcome of `Authorization`. |
| Controller.ControllerClass.RunAuthorizationCheck | lib/authority/controller.rb:92-105 | The before-filter raises whatever finding the resource raises, with no further step and no state change. Otherwise it is `authorize_action_for(resource)` with no options, memos changing as `ConsultedBy` names. `authority_resource` never changes. |
| Controller.MergedActionsGet | lib/authority/controller.rb:40-42 | After a merge, an action named in the given map takes the verb last given for its name. String keys count as Symbols, and every other action keeps its verb. |
| Controller.MergedActionsOverride | spec/authority/controller_spec.rb:40-48 | A Symbol-keyed action written with `authority_actions` is then that action's verb. |
| Controller.MissingActionNeverEnforces | lib/authority/controller.rb:73-76 | An action absent from the map raises MissingAction, sends nothing, and writes no memo. |
| Controller.EditChecksUpdate | lib/authority/configuration.rb:25 | With the default map and user method, an `edit` request is `enforce(:update, ...)` with the current user. |

## Left out

- Logging setup is not modelled: `Configuration#initialize` builds a `Logger` on standard error, and `Authority.logger` memoizes it. A `Controller.Logger` stands in for it, as a list of warnings.
- The Rails wiring is not modelled:
  - the `rescue_from` callback and the `class_attribute` declaration;
  - `before_filter` registration, of which only "records the resource and merges the actions" is kept;
  - `authority_forbidden`, which renders a 403 page.
- The railtie, the generators and templates, and `lib/model_citizen` are not part of this model.
- Ruby's metaprogramming is replaced by lookups.
  - The generated methods are dispatch over the vocabulary snapshot taken when the internals load.
  - `constantize` is a finite map lookup, with no namespaces.
  - `respond_to?` and `send` are modelled only as method presence.
- Inheritance is flattened.
  - An authorizer class carries every override it defines or inherits.
  - A model class's `authorizer_name` is its own field, so a `class_attribute` inherited by a subclass is not modelled.
- `config.abilities = {...}` is not one of the modelled configuration statements. That setter replaces the Hash, and the replacement would not be frozen.
- Controller.InstanceAuthorityResource: a `NoMethodError` raised inside an existing finder method is not modelled. The source turns that into `MissingResource` too.
- Authority.Runtime.Enforce assumes a loaded runtime. Calls before `configure` fail in Ruby with `NoMethodError`, because no `can_` methods exist yet; they are not modelled as a separate path.
- Exception messages are modelled only for SecurityViolation, NoAuthorizerError, MissingAction and MissingResource. The Ruby messages of NoMethodError, ArgumentError and TypeError are not.
- RubyHash.SymbolizeKeys: lets the later entry win when a String and a Symbol key spell the same name. That is ActiveSupport 4's `symbolize_keys`, built on `transform_keys`. ActiveSupport 3's `symbolize_keys!` lets the String key's value win in either order, and that version is not modelled.
- Authorizer.Default, Abilities.ClassBy, Abilities.InstanceBy, Authority.ActionAuthorized: application code is modelled as total boolean decisions. A rule, a strategy or the default override always answers true or false. An exception raised by the application's own `*able_by?` code, a message it sends, or a non-boolean answer is not modelled. Such an exception would pass through `enforce`, and `action_authorized?` could then raise something other than SecurityViolation; the "never raises SecurityViolation" contracts hold only for the modelled decisions.
- Objects.Obj keeps users and resources apart: `User` has no model class. A user class that also includes `Authority::Abilities`, and so could itself be checked as a resource, is not representable.
- Error kinds are plain constructors. Ruby's exception class hierarchy is not modelled, nor is what `rescue` would match beyond `NoMethodError` in `instance_authority_resource`.

## Findings

| source | as written | input that shows it | evidently intended | confidence | as-written member | corrected member |
|---|---|---|---|---|---|---|
| lib/authority/user_abilities.rb:13 | `def can_<verb>?(resource)` takes exactly one argument and sends `<adjective>_by?(self)` | `Authority.enforce(:read, doc, user, {:size => 'wee'})` calls `user.can_read?(doc, {:size => 'wee'})`, which raises ArgumentError (2 for 1) | `can_<verb>?(resource, options = {})` sends `<adjective>_by?(self, options)` when the options are not empty, as spec/authority/user_abilities_spec.rb:19-35 expects | not executed | UserAbilities.CanAsWritten, UserAbilities.AsWrittenDropsOptions, Authority.OptionsRaiseArgumentError | UserAbilities.Can, Authority.IntendedEnforcement, Authority.IntendedOptionsReachTheRule |
