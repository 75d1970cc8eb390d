/** Route builders and socket event names (src/constants.ts). */
module Constants {

  const RegisterPrefix: string := "/register/"
  const HandleRegisterSuffix: string := "/new-participant"

  /** `URLS.REGISTER(id)`: the registration page of one collector. */
  function Register(id: string): (path: string)
    ensures |path| == |RegisterPrefix| + |id|
    ensures path[..|RegisterPrefix|] == RegisterPrefix
    ensures path[|RegisterPrefix|..] == id
  {
    RegisterPrefix + id
  }

  /** `URLS.HANDLE_REGISTER(pre)`: the form-post route under a page route. */
  function HandleRegister(pre: string): (path: string)
    ensures |path| == |pre| + |HandleRegisterSuffix|
    ensures path[..|pre|] == pre
    ensures path[|pre|..] == HandleRegisterSuffix
  {
    pre + HandleRegisterSuffix
  }

  /** Different ids give different page routes. */
  lemma RegisterInjective(a: string, b: string)
    requires Register(a) == Register(b)
    ensures a == b
  {
    assert a == Register(a)[|RegisterPrefix|..];
  }

  /** Different page routes give different form-post routes. */
  lemma HandleRegisterInjective(a: string, b: string)
    requires HandleRegister(a) == HandleRegister(b)
    ensures a == b
  {
    assert a == HandleRegister(a)[..|a|];
  }

  /** The page route is a strict prefix of its form-post route, so the two never coincide. */
  lemma HandleRegisterIsBelowPage(pre: string)
    ensures pre < HandleRegister(pre)
    ensures HandleRegister(pre) != pre
  {
  }

  /** The socket events of the registration flow. */
  datatype Event =
    | ParticipantRegister          // inbound: creation of a collector
    | OpenRegister                 // inbound: open a collector
    | ParticipantRegisterResults   // outbound: the final result list
    | ParticipantRegisterResult    // outbound: one new registration

  /** The wire name of each event (`EVENTS`). */
  function EventName(e: Event): (name: string)
    ensures name != []
    ensures forall i :: 0 <= i < |name| ==> 'a' <= name[i] <= 'z' || name[i] == '_'
  {
    match e
    case ParticipantRegister => "participant_register"
    case OpenRegister => "open_register"
    case ParticipantRegisterResults => "participant_register_results"
    case ParticipantRegisterResult => "participant_register_result"
  }

  /** No two events share a wire name, so a listener never confuses them. */
  lemma EventNamesDistinct(e1: Event, e2: Event)
    requires e1 != e2
    ensures EventName(e1) != EventName(e2)
  {
  }
}
