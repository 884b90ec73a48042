/**
 * The values an authorization check passes around: the application's
 * objects (duck-typed in the library), options hashes, the exceptions the
 * library raises, and the record of message sends a check makes.
 */
module Objects {
  import opened Wrappers

  /** An options hash, `{:size => 'wee'}`; `{}` is `map[]`. */
  type Options = map<string, string>

  /** The application objects a check meets. `User` stands for an object whose
      class includes `Authority::UserAbilities`; `ModelRef` for a class (a
      Ruby Class object, named by its name); `Record` for an instance of one,
      with the attribute values an authorizer may inspect. */
  datatype Obj =
    | Nil
    | User(handle: string)
    | ModelRef(model: string)
    | Record(model: string, handle: string, attrs: map<string, string>)
  {
    /** Ruby's `to_s`, as string interpolation uses it. */
    function ToS(): string {
      match this
      case Nil => ""
      case User(l) => l
      case ModelRef(m) => m
      case Record(_, l, _) => l
    }
  }

  /** The configured default strategy: (adjective, authorizer class name, user) to a decision. */
  type Strategy = (string, string, Obj) -> bool

  /** How many arguments a Ruby method takes: `(user)`, `(user, options)` or `(user, options = {})`. */
  datatype Arity = One | Two | OneOrTwo

  /** An argument list of one or two: a subject (a resource or a user), then possibly an options hash. */
  datatype Args = Args(first: Obj, options: Option<Options>) {
    function Count(): nat {
      if options.Some? then 2 else 1
    }

    /** The options the callee sees: its `options = {}` default when none were passed. */
    function OptionsOrEmpty(): Options {
      options.GetOr(map[])
    }

    function ToList(): (l: seq<Arg>)
      ensures |l| == Count()
    {
      match options
      case None => [ObjArg(first)]
      case Some(o) => [ObjArg(first), OptionsArg(o)]
    }
  }

  predicate Accepts(arity: Arity, args: Args) {
    match arity
    case One => args.options.None?
    case Two => args.options.Some?
    case OneOrTwo => true
  }

  /** The library's forwarding rule: options are passed on only when they are not `{}`. */
  function Forward(first: Obj, options: Options): (a: Args)
    ensures a.first == first
    ensures a.Count() == 1 <==> options == map[]
    ensures a.OptionsOrEmpty() == options
  {
    Args(first, if options == map[] then None else Some(options))
  }

  /** Who receives a message. */
  datatype Receiver =
    | ObjRecv(obj: Obj)
    | NameRecv(name: string)                  // a String, receiving `constantize`
    | AuthorizerClassRecv(name: string)       // an authorizer class
    | AuthorizerRecv(name: string, resource: Obj)  // an authorizer instance bound to a resource
    | StrategyRecv                            // the configured default strategy Proc
    | ControllerRecv                          // the controller instance
  datatype Arg = ObjArg(obj: Obj) | OptionsArg(options: Options) | SymbolArg(name: string) | ClassArg(name: string)

  /** One message send: receiver, method name and argument list, as a test double observes it. */
  datatype Event = Send(to: Receiver, selector: string, args: seq<Arg>)

  /** The exceptions of the library and the Ruby errors that reach its callers. */
  datatype Error =
    | SecurityViolation(user: Obj, action: string, resource: Obj)
    | NoAuthorizerError(authorizerName: string)
    | MissingAction(actionName: string)
    | MissingResource(finder: string)
    | NoMethodError(receiver: Receiver, selector: string)
    | ArgumentError(given: nat)
    | TypeError(value: Obj)
    | FrozenError

  /** What a call returns or raises, with the sends it made, in order. */
  datatype Step<T> = Step(result: Result<T, Error>, trace: seq<Event>)

  /** The selector of the generated user method `can_<verb>?`; it ends in '?', so it is never `new` or `constantize`. */
  function CanSelector(verb: string): (s: string)
    ensures |s| == |verb| + 5 && s[|s| - 1] == '?'
  {
    "can_" + verb + "?"
  }

  /** The selector of the generated method `<adjective>_by?`; it ends in '?', so it is never `new` or `constantize`. */
  function BySelector(adjective: string): (s: string)
    ensures |s| == |adjective| + 4 && s[|s| - 1] == '?'
  {
    adjective + "_by?"
  }

  /** Number of `new` sends: how many authorizer instances a trace constructs. */
  function Constructions(trace: seq<Event>): nat
  {
    if |trace| == 0 then 0
    else (if trace[0].selector == "new" then 1 else 0) + Constructions(trace[1..])
  }

  /** Number of `constantize` sends: how many times a trace resolves an authorizer name. */
  function Constantizations(trace: seq<Event>): nat
  {
    if |trace| == 0 then 0
    else (if trace[0].selector == "constantize" then 1 else 0) + Constantizations(trace[1..])
  }

  lemma {:induction false} ConstructionsAppend(a: seq<Event>, b: seq<Event>)
    ensures Constructions(a + b) == Constructions(a) + Constructions(b)
    ensures Constantizations(a + b) == Constantizations(a) + Constantizations(b)
  {
    if |a| > 0 {
      assert (a + b)[1..] == a[1..] + b;
      ConstructionsAppend(a[1..], b);
    } else {
      assert a + b == b;
    }
  }

  /** The counts of a one-event trace. */
  lemma CountsOne(e: Event)
    ensures Constructions([e]) == if e.selector == "new" then 1 else 0
    ensures Constantizations([e]) == if e.selector == "constantize" then 1 else 0
  {
    assert [e][1..] == [];
  }
}
