/** The OAuth state kept in the browser's session storage by
    web/src/services/auth.ts, and the Discord authorization URL built
    around it. The random state (`nanoid()`) is the parameter `nonce`; the
    client id and redirect URI of the configuration are parameters too. */
module WebAuth {
  import opened Common

  datatype Provider = Discord

  function ProviderName(p: Provider): string {
    match p
    case Discord => "discord"
  }

  const StatePrefix: string := "authState:"

  /** `authState:{provider}` */
  function StateKey(p: Provider): (r: string)
    ensures StartsWith(r, StatePrefix)
  {
    StatePrefix + ProviderName(p)
  }

  predicate StartsWith(s: string, prefix: string) {
    |prefix| <= |s| && s[..|prefix|] == prefix
  }

  /** Session storage without the OAuth state entries. */
  function WithoutStates(items: map<string, string>): map<string, string> {
    map k | k in items && !StartsWith(k, StatePrefix) :: items[k]
  }

  /** `cleanup` leaves no state entry behind and keeps every other entry
      with its value. */
  lemma WithoutStatesSpec(items: map<string, string>)
    ensures forall k :: k in WithoutStates(items) <==> k in items && !StartsWith(k, StatePrefix)
    ensures forall k :: k in WithoutStates(items) ==> WithoutStates(items)[k] == items[k]
    ensures forall p: Provider :: StateKey(p) !in WithoutStates(items)
  {
  }

  /** The query parameters of the authorization request. */
  datatype ParamName = ResponseType | ClientId | Scope | State | RedirectUri | Prompt

  /** The parameter's name on the wire. */
  function WireName(n: ParamName): string {
    match n
    case ResponseType => "response_type"
    case ClientId => "client_id"
    case Scope => "scope"
    case State => "state"
    case RedirectUri => "redirect_uri"
    case Prompt => "prompt"
  }

  datatype Url = Url(base: string, params: seq<(ParamName, string)>)

  /** The value of the first parameter named `name`, as `searchParams.get`. */
  function Param(params: seq<(ParamName, string)>, name: ParamName): Option<string> {
    if params == [] then None
    else if params[0].0 == name then Some(params[0].1)
    else Param(params[1..], name)
  }

  /** A parameter is found exactly when one carries the name. */
  lemma {:induction false} ParamSpec(params: seq<(ParamName, string)>, name: ParamName)
    ensures Param(params, name).Some? <==> exists i :: 0 <= i < |params| && params[i].0 == name
  {
    if params != [] {
      ParamSpec(params[1..], name);
      assert forall i :: 1 <= i < |params| ==> params[i] == params[1..][i - 1];
    }
  }

  /** The Discord authorization URL for a given state, its parameters in
      the order they are appended. */
  function AuthorizeUrl(p: Provider, state: string, clientId: string, redirectUri: string): (r: Url)
    ensures r.base == "https://discord.com/oauth2/authorize"
    ensures |r.params| == 6
  {
    match p
    case Discord =>
      Url("https://discord.com/oauth2/authorize",
          [(ResponseType, "code"), (ClientId, clientId), (Scope, "identify"),
           (State, state), (RedirectUri, redirectUri), (Prompt, "none")])
  }

  /** The URL asks for an authorization code with the `identify` scope and
      no prompt, and carries the state, the client id and the redirect URI. */
  lemma AuthorizeUrlSpec(p: Provider, state: string, clientId: string, redirectUri: string)
    ensures var ps := AuthorizeUrl(p, state, clientId, redirectUri).params;
            && Param(ps, State) == Some(state)
            && Param(ps, ResponseType) == Some("code")
            && Param(ps, Scope) == Some("identify")
            && Param(ps, Prompt) == Some("none")
            && Param(ps, ClientId) == Some(clientId)
            && Param(ps, RedirectUri) == Some(redirectUri)
  {
    var ps := AuthorizeUrl(p, state, clientId, redirectUri).params;
    ParamFirst(ps, 0, ResponseType);
    ParamFirst(ps, 1, ClientId);
    ParamFirst(ps, 2, Scope);
    ParamFirst(ps, 3, State);
    ParamFirst(ps, 4, RedirectUri);
    ParamFirst(ps, 5, Prompt);
  }

  /** The first parameter with a name gives its value. */
  lemma {:induction false} ParamFirst(params: seq<(ParamName, string)>, i: nat, name: ParamName)
    requires i < |params| && params[i].0 == name
    requires forall j :: 0 <= j < i ==> params[j].0 != name
    ensures Param(params, name) == Some(params[i].1)
  {
    if i > 0 {
      assert params[1..][i - 1] == params[i];
      ParamFirst(params[1..], i - 1, name);
    }
  }

  class SessionStorage {
    var items: map<string, string>

    constructor (items: map<string, string>)
      ensures this.items == items
    {
      this.items := items;
    }

    /** `getState` */
    function GetState(p: Provider): (r: Option<string>)
      reads this
      ensures r.Some? <==> StateKey(p) in items
      ensures r.Some? ==> r.value == items[StateKey(p)]
    {
      if StateKey(p) in items then Some(items[StateKey(p)]) else None
    }

    /** `setRandomState`: store the new state and return it. */
    method SetRandomState(p: Provider, nonce: string) returns (state: string)
      modifies this
      ensures state == nonce
      ensures items == old(items)[StateKey(p) := nonce]
      ensures GetState(p) == Some(state)
    {
      state := nonce;
      items := items[StateKey(p) := state];
    }

    /** `url`: a new state, carried by the authorization URL and kept for
        the redirect's check. */
    method AuthUrl(p: Provider, nonce: string, clientId: string, redirectUri: string) returns (r: Url)
      modifies this
      ensures r == AuthorizeUrl(p, nonce, clientId, redirectUri)
      ensures items == old(items)[StateKey(p) := nonce]
      ensures GetState(p) == Param(r.params, State)
    {
      var state := SetRandomState(p, nonce);
      r := AuthorizeUrl(p, state, clientId, redirectUri);
      AuthorizeUrlSpec(p, state, clientId, redirectUri);
    }

    /** `cleanup`: remove every key starting with `authState:`. */
    method Cleanup()
      modifies this
      ensures items == WithoutStates(old(items))
      ensures forall p: Provider :: GetState(p) == None
    {
      var keys := items.Keys;
      while keys != {}
        invariant keys <= old(items).Keys
        invariant items == map k | k in old(items) && (k in keys || !StartsWith(k, StatePrefix)) :: old(items)[k]
        decreases keys
      {
        var k :| k in keys;
        if StartsWith(k, StatePrefix) {
          items := items - {k};
        }
        keys := keys - {k};
      }
      WithoutStatesSpec(old(items));
    }
  }
}
