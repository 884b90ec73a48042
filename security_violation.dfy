/** `Authority::SecurityViolation`: the denial exception and its message. */
module SecurityViolation {
  import opened Objects

  const NotAuthorizedTo := " is not authorized to "
  const ThisResource := " this resource: "

  /** `message`: the user, the action and the resource, each rendered with `to_s`. */
  function Message(e: Error): (m: string)
    requires e.SecurityViolation?
    ensures |m| == |e.user.ToS()| + |NotAuthorizedTo| + |e.action| + |ThisResource| + |e.resource.ToS()|
    ensures m[..|e.user.ToS()|] == e.user.ToS()
    ensures m[|m| - |e.resource.ToS()|..] == e.resource.ToS()
    ensures m[|e.user.ToS()|..|e.user.ToS()| + |NotAuthorizedTo|] == NotAuthorizedTo
  {
    e.user.ToS() + NotAuthorizedTo + e.action + ThisResource + e.resource.ToS()
  }

  /** The message is a function of the three stored fields and nothing else. */
  lemma MessageDependsOnFields(a: Error, b: Error)
    requires a.SecurityViolation? && b.SecurityViolation?
    requires a.user.ToS() == b.user.ToS() && a.action == b.action && a.resource.ToS() == b.resource.ToS()
    ensures Message(a) == Message(b)
  {
  }

  /** Two violations whose users render alike but whose actions differ have different messages:
      the action is recoverable from the message once the user is known. */
  lemma MessageDistinguishesActions(a: Error, b: Error)
    requires a.SecurityViolation? && b.SecurityViolation?
    requires a.user.ToS() == b.user.ToS() && a.resource.ToS() == b.resource.ToS()
    requires a.action != b.action
    ensures Message(a) != Message(b)
  {
    var u := |a.user.ToS()| + |NotAuthorizedTo|;
    if |a.action| == |b.action| {
      assert Message(a)[u..u + |a.action|] == a.action;
      assert Message(b)[u..u + |a.action|] == b.action;
    }
  }
}
