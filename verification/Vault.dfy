/** The credential vault: four kinds of secrets kept apart in one string map. */
module Vault {
  import opened Options
  import opened Text
  import opened VaultBackends

  const STORE_PREFIX := "store:"
  const PROVIDER_PREFIX := "provider:"
  const MCP_CRED_PREFIX := "mcp:cred:"
  const MCP_STATE_PREFIX := "mcp:state:"
  const MCP_BEARER_PREFIX := "mcp:bearer:"

  datatype Credential = ApiKey(key: string) | OAuth(accessToken: string, refreshToken: Option<string>, expiresAt: Option<nat>)

  datatype CredentialType = ApiKeyType | OAuthType

  datatype ProviderEntry = ProviderEntry(name: string, credentialType: CredentialType, expiresAt: Option<nat>)

  function ProviderKey(name: string): string { PROVIDER_PREFIX + name }
  function McpCredKey(server: string): string { MCP_CRED_PREFIX + server }
  function McpStateKey(csrf: string): string { MCP_STATE_PREFIX + csrf }
  function McpBearerKey(server: string): string { MCP_BEARER_PREFIX + server }

  /** The kinds of keys never collide, nor do two names of one kind, and none is the index's key. */
  lemma KeysAreApart(a: string, b: string)
    ensures ProviderKey(a) != McpCredKey(b) && ProviderKey(a) != McpStateKey(b) && ProviderKey(a) != McpBearerKey(b)
    ensures McpCredKey(a) != McpStateKey(b) && McpCredKey(a) != McpBearerKey(b) && McpStateKey(a) != McpBearerKey(b)
    ensures ProviderKey(a) != INDEX_KEY && McpCredKey(a) != INDEX_KEY && McpStateKey(a) != INDEX_KEY
    ensures McpBearerKey(a) != INDEX_KEY
    ensures (ProviderKey(a) == ProviderKey(b) <==> a == b) && (McpCredKey(a) == McpCredKey(b) <==> a == b)
    ensures (McpStateKey(a) == McpStateKey(b) <==> a == b) && (McpBearerKey(a) == McpBearerKey(b) <==> a == b)
  {
    assert ProviderKey(a)[0] == 'p' && McpCredKey(a)[0] == 'm' && McpStateKey(a)[0] == 'm' && McpBearerKey(a)[0] == 'm' && INDEX_KEY[0] == 'n';
    assert ProviderKey(b)[0] == 'p' && McpCredKey(b)[0] == 'm' && McpStateKey(b)[0] == 'm' && McpBearerKey(b)[0] == 'm';
    assert McpCredKey(a)[4] == 'c' && McpStateKey(a)[4] == 's' && McpBearerKey(b)[4] == 'b' && McpStateKey(b)[4] == 's';
    assert ProviderKey(a)[|PROVIDER_PREFIX|..] == a && ProviderKey(b)[|PROVIDER_PREFIX|..] == b;
    assert McpCredKey(a)[|MCP_CRED_PREFIX|..] == a && McpCredKey(b)[|MCP_CRED_PREFIX|..] == b;
    assert McpStateKey(a)[|MCP_STATE_PREFIX|..] == a && McpStateKey(b)[|MCP_STATE_PREFIX|..] == b;
    assert McpBearerKey(a)[|MCP_BEARER_PREFIX|..] == a && McpBearerKey(b)[|MCP_BEARER_PREFIX|..] == b;
  }

  // ---- What each operation reads and writes ----

  function Resolved(c: Codec<Credential>, secrets: map<string, string>, reference: string): Option<string>
  {
    match StripPrefix(reference, STORE_PREFIX)
    case None => None
    case Some(name) =>
      if ProviderKey(name) !in secrets then None
      else match c.dec(secrets[ProviderKey(name)])
        case Some(ApiKey(key)) => Some(key)
        case Some(OAuth(token, _, _)) => Some(token)
        case None => None
  }

  function ResolvedBearer(secrets: map<string, string>, token: string): Result<string, VaultError>
  {
    match StripPrefix(token, STORE_PREFIX)
    case None => Ok(token)
    case Some(name) =>
      if McpBearerKey(name) in secrets then Ok(secrets[McpBearerKey(name)]) else Err(KeyNotFound(McpBearerKey(name)))
  }

  function Summary(name: string, c: Credential): ProviderEntry
  {
    match c
    case ApiKey(_) => ProviderEntry(name, ApiKeyType, None)
    case OAuth(_, _, expiresAt) => ProviderEntry(name, OAuthType, expiresAt)
  }

  /** What one listed key adds to the status display: a provider whose credential is there and readable. */
  function Shown(c: Codec<Credential>, secrets: map<string, string>, key: string): seq<ProviderEntry>
  {
    match StripPrefix(key, PROVIDER_PREFIX)
    case None => []
    case Some(name) =>
      if key !in secrets then []
      else match c.dec(secrets[key])
        case Some(credential) => [Summary(name, credential)]
        case None => []
  }

  function Listed(c: Codec<Credential>, secrets: map<string, string>, keys: seq<string>): seq<ProviderEntry>
  {
    if keys == [] then [] else Listed(c, secrets, keys[..|keys| - 1]) + Shown(c, secrets, keys[|keys| - 1])
  }

  datatype Op =
    | StoreApiKey(name: string, key: string)
    | StoreOAuth(name: string, access: string, refresh: Option<string>, expiresAt: Option<nat>)
    | RemoveProvider(name: string)
    | SetMcpCredentials(server: string, creds: string)
    | ClearMcpCredentials(server: string)
    | SetMcpState(csrf: string, state: string)
    | DeleteMcpState(csrf: string)

  function Applied(c: Codec<Credential>, secrets: map<string, string>, op: Op): map<string, string>
  {
    match op
    case StoreApiKey(name, key) => secrets[ProviderKey(name) := c.enc(ApiKey(key))]
    case StoreOAuth(name, access, refresh, expiresAt) => secrets[ProviderKey(name) := c.enc(OAuth(access, refresh, expiresAt))]
    case RemoveProvider(name) => secrets - {ProviderKey(name)}
    case SetMcpCredentials(server, creds) => secrets[McpCredKey(server) := creds]
    case ClearMcpCredentials(server) => secrets - {McpCredKey(server)}
    case SetMcpState(csrf, state) => secrets[McpStateKey(csrf) := state]
    case DeleteMcpState(csrf) => secrets - {McpStateKey(csrf)}
  }

  /** The vault over a keychain, whose index may be stale or unreadable; `Valid` says that it is in order. */
  class Vault {
    const backend: KeychainBackend
    const codec: Codec<Credential>

    ghost predicate Valid() reads this, backend
    {
      RoundTrips(codec) && RoundTrips(backend.codec) && IndexAgrees(backend.codec, backend.entries)
    }

    ghost function Contents(): map<string, string> reads this, backend { Secrets(backend.entries) }

    constructor (backend: KeychainBackend, codec: Codec<Credential>)
      ensures this.backend == backend && this.codec == codec
    {
      this.backend, this.codec := backend, codec;
    }

    /** Whether the registry index can be read at all. */
    ghost predicate Readable() reads this, backend { Index(backend.codec, backend.entries).Ok? }

    method Put(key: string, value: string) returns (r: Result<(), VaultError>)
      requires key != INDEX_KEY
      modifies backend
      ensures Contents() == old(Contents())[key := value]
      ensures (r.Ok? <==> old(Readable())) && (old(Valid()) ==> Valid())
    {
      SetChangesSecretsRegardless(backend.codec, backend.entries, key, value);
      if RoundTrips(backend.codec) && IndexAgrees(backend.codec, backend.entries) {
        SetKeepsIndexIff(backend.codec, backend.entries, key, value);
      }
      r := backend.Set(key, value);
    }

    method Drop(key: string) returns (r: Result<(), VaultError>)
      requires key != INDEX_KEY
      modifies backend
      ensures Contents() == old(Contents()) - {key}
      ensures (r.Ok? <==> old(Readable())) && (old(Valid()) ==> Valid())
    {
      DeleteChangesSecretsRegardless(backend.codec, backend.entries, key);
      if RoundTrips(backend.codec) && IndexAgrees(backend.codec, backend.entries) {
        DeleteKeepsIndex(backend.codec, backend.entries, key);
      }
      r := backend.Delete(key);
    }

    method Resolve(reference: string) returns (r: Option<string>)
      ensures r == Resolved(codec, Contents(), reference)
    {
      var name := StripPrefix(reference, STORE_PREFIX);
      if name.None? { return None; }
      KeysAreApart(name.value, name.value);
      var raw := backend.Get(ProviderKey(name.value));
      if raw.None? { return None; }
      var credential := codec.dec(raw.value);
      if credential.None? { return None; }
      match credential.value
      case ApiKey(key) => r := Some(key);
      case OAuth(token, _, _) => r := Some(token);
    }

    method StoreApiKey(name: string, key: string) returns (r: Result<(), VaultError>)
      modifies backend
      ensures Contents() == Applied(codec, old(Contents()), Op.StoreApiKey(name, key))
      ensures (r.Ok? <==> old(Readable())) && (old(Valid()) ==> Valid())
    {
      KeysAreApart(name, name);
      r := Put(ProviderKey(name), codec.enc(ApiKey(key)));
    }

    method StoreOAuth(
        name: string, access: string, refresh: Option<string>, expiresAt: Option<nat>)
      returns (r: Result<(), VaultError>)
      modifies backend
      ensures Contents() == Applied(codec, old(Contents()), Op.StoreOAuth(name, access, refresh, expiresAt))
      ensures (r.Ok? <==> old(Readable())) && (old(Valid()) ==> Valid())
    {
      KeysAreApart(name, name);
      r := Put(ProviderKey(name), codec.enc(OAuth(access, refresh, expiresAt)));
    }

    method RemoveProvider(name: string) returns (existed: Result<bool, VaultError>)
      modifies backend
      ensures Contents() == Applied(codec, old(Contents()), Op.RemoveProvider(name))
      ensures ProviderKey(name) in old(Contents()) ==> (existed.Ok? <==> old(Readable())) && (existed.Ok? ==> existed.value)
      ensures ProviderKey(name) !in old(Contents()) ==> existed == Ok(false)
      ensures old(Valid()) ==> Valid()
    {
      KeysAreApart(name, name);
      var key := ProviderKey(name);
      var raw := backend.Get(key);
      if raw.None? {
        assert Contents() - {key} == Contents();
        return Ok(false);
      }
      var r := Drop(key);
      if r.Err? { return Err(r.error); }
      existed := Ok(true);
    }

    method ListProviders() returns (entries: Result<seq<ProviderEntry>, VaultError>)
      ensures entries == match Index(backend.codec, backend.entries) {
          case Ok(keys) => Ok(Listed(codec, Contents(), keys))
          case Err(x) => Err(x)
        }
    {
      var keys := backend.List();
      if keys.Err? { return Err(keys.error); }
      var all: seq<ProviderEntry> := [];
      for i := 0 to |keys.value|
        invariant all == Listed(codec, Contents(), keys.value[..i])
      {
        var key := keys.value[i];
        assert keys.value[..i + 1][..i] == keys.value[..i];
        var name := StripPrefix(key, PROVIDER_PREFIX);
        if name.None? { continue; }
        KeysAreApart(name.value, name.value);
        var raw := backend.Get(key);
        if raw.None? { continue; }
        var credential := codec.dec(raw.value);
        if credential.None? { continue; }
        match credential.value
        case ApiKey(_) => all := all + [ProviderEntry(name.value, ApiKeyType, None)];
        case OAuth(_, _, expiresAt) => all := all + [ProviderEntry(name.value, OAuthType, expiresAt)];
      }
      assert keys.value[..|keys.value|] == keys.value;
      entries := Ok(all);
    }

    method SetMcpCredentials(server: string, creds: string) returns (r: Result<(), VaultError>)
      modifies backend
      ensures Contents() == Applied(codec, old(Contents()), Op.SetMcpCredentials(server, creds))
      ensures (r.Ok? <==> old(Readable())) && (old(Valid()) ==> Valid())
    {
      KeysAreApart(server, server);
      r := Put(McpCredKey(server), creds);
    }

    method ClearMcpCredentials(server: string) returns (r: Result<(), VaultError>)
      modifies backend
      ensures Contents() == Applied(codec, old(Contents()), Op.ClearMcpCredentials(server))
      ensures (r.Ok? <==> old(Readable())) && (old(Valid()) ==> Valid())
    {
      KeysAreApart(server, server);
      r := Drop(McpCredKey(server));
    }

    method SetMcpState(csrf: string, state: string) returns (r: Result<(), VaultError>)
      modifies backend
      ensures Contents() == Applied(codec, old(Contents()), Op.SetMcpState(csrf, state))
      ensures (r.Ok? <==> old(Readable())) && (old(Valid()) ==> Valid())
    {
      KeysAreApart(csrf, csrf);
      r := Put(McpStateKey(csrf), state);
    }

    method DeleteMcpState(csrf: string) returns (r: Result<(), VaultError>)
      modifies backend
      ensures Contents() == Applied(codec, old(Contents()), Op.DeleteMcpState(csrf))
      ensures (r.Ok? <==> old(Readable())) && (old(Valid()) ==> Valid())
    {
      KeysAreApart(csrf, csrf);
      r := Drop(McpStateKey(csrf));
    }

    method ResolveBearer(token: string) returns (r: Result<string, VaultError>)
      ensures r == ResolvedBearer(Contents(), token)
    {
      var name := StripPrefix(token, STORE_PREFIX);
      if name.None? { return Ok(token); }
      KeysAreApart(name.value, name.value);
      var key := McpBearerKey(name.value);
      var value := backend.Get(key);
      r := if value.Some? then Ok(value.value) else Err(KeyNotFound(key));
    }
  }

  // ---- One string map holds four independent typed maps ----

  datatype Typed = Typed(providers: map<string, Credential>, creds: map<string, string>, states: map<string, string>, bearers: map<string, string>)

  function TypedApplied(t: Typed, op: Op): Typed
  {
    match op
    case StoreApiKey(name, key) => t.(providers := t.providers[name := ApiKey(key)])
    case StoreOAuth(name, access, refresh, expiresAt) => t.(providers := t.providers[name := OAuth(access, refresh, expiresAt)])
    case RemoveProvider(name) => t.(providers := t.providers - {name})
    case SetMcpCredentials(server, creds) => t.(creds := t.creds[server := creds])
    case ClearMcpCredentials(server) => t.(creds := t.creds - {server})
    case SetMcpState(csrf, state) => t.(states := t.states[csrf := state])
    case DeleteMcpState(csrf) => t.(states := t.states - {csrf})
  }

  /** What the string map holds under the four keys of one name is what the typed maps hold for it. */
  predicate Agrees(c: Codec<Credential>, s: map<string, string>, t: Typed, n: string)
  {
    && (n in t.providers <==> ProviderKey(n) in s) && (n in t.providers ==> s[ProviderKey(n)] == c.enc(t.providers[n]))
    && (n in t.creds <==> McpCredKey(n) in s) && (n in t.creds ==> s[McpCredKey(n)] == t.creds[n])
    && (n in t.states <==> McpStateKey(n) in s) && (n in t.states ==> s[McpStateKey(n)] == t.states[n])
    && (n in t.bearers <==> McpBearerKey(n) in s) && (n in t.bearers ==> s[McpBearerKey(n)] == t.bearers[n])
  }

  ghost predicate Represents(c: Codec<Credential>, s: map<string, string>, t: Typed) { forall n :: Agrees(c, s, t, n) }

  /** The name an operation is about. */
  function Subject(op: Op): string
  {
    match op
    case StoreApiKey(n, _) => n
    case StoreOAuth(n, _, _, _) => n
    case RemoveProvider(n) => n
    case SetMcpCredentials(n, _) => n
    case ClearMcpCredentials(n) => n
    case SetMcpState(n, _) => n
    case DeleteMcpState(n) => n
  }

  lemma OpKeepsAgreement(c: Codec<Credential>, s: map<string, string>, t: Typed, op: Op, n: string)
    requires Agrees(c, s, t, n)
    ensures Agrees(c, Applied(c, s, op), TypedApplied(t, op), n)
  {
    hide ProviderKey, McpCredKey, McpStateKey, McpBearerKey;
    KeysAreApart(Subject(op), n);
    KeysAreApart(n, Subject(op));
  }

  lemma OpRefines(c: Codec<Credential>, s: map<string, string>, t: Typed, op: Op)
    requires Represents(c, s, t)
    ensures Represents(c, Applied(c, s, op), TypedApplied(t, op))
  {
    hide Agrees, Applied, TypedApplied;
    forall n ensures Agrees(c, Applied(c, s, op), TypedApplied(t, op), n) { OpKeepsAgreement(c, s, t, op, n); }
  }

  function Run(c: Codec<Credential>, s: map<string, string>, ops: seq<Op>): map<string, string>
  {
    if ops == [] then s else Applied(c, Run(c, s, ops[..|ops| - 1]), ops[|ops| - 1])
  }

  function TypedRun(t: Typed, ops: seq<Op>): Typed
  {
    if ops == [] then t else TypedApplied(TypedRun(t, ops[..|ops| - 1]), ops[|ops| - 1])
  }

  lemma {:induction false} RunRefines(c: Codec<Credential>, s: map<string, string>, t: Typed, ops: seq<Op>)
    requires Represents(c, s, t)
    ensures Represents(c, Run(c, s, ops), TypedRun(t, ops))
  {
    hide Represents, Applied, TypedApplied;
    if ops != [] {
      RunRefines(c, s, t, ops[..|ops| - 1]);
      OpRefines(c, Run(c, s, ops[..|ops| - 1]), TypedRun(t, ops[..|ops| - 1]), ops[|ops| - 1]);
    }
  }

  const EMPTY := Typed(map[], map[], map[], map[])

  function Touches(
      op: Op, name: string): bool { (op.StoreApiKey? || op.StoreOAuth? || op.RemoveProvider?) && op.name == name }

  function TokenOf(t: Typed, name: string): Option<string>
  {
    if name !in t.providers then None
    else match t.providers[name] { case ApiKey(key) => Some(key) case OAuth(token, _, _) => Some(token) }
  }

  lemma EmptyIsRepresented(c: Codec<Credential>)
    ensures Represents(c, map[], EMPTY)
  {
  }

  lemma ResolveReadsTheProvider(c: Codec<Credential>, s: map<string, string>, t: Typed, name: string)
    requires RoundTrips(c) && Represents(c, s, t)
    ensures Resolved(c, s, STORE_PREFIX + name) == TokenOf(t, name)
  {
    hide ProviderKey, McpCredKey, McpStateKey, McpBearerKey;
    var reference := STORE_PREFIX + name;
    assert reference[|STORE_PREFIX|..] == name && STORE_PREFIX <= reference;
    assert Agrees(c, s, t, name);
    if name in t.providers { assert c.dec(c.enc(t.providers[name])) == Some(t.providers[name]); }
  }

  lemma {:induction false} UntouchedProviderStays(t: Typed, ops: seq<Op>, name: string)
    requires forall i :: 0 <= i < |ops| ==> !Touches(ops[i], name)
    ensures TokenOf(TypedRun(t, ops), name) == TokenOf(t, name)
  {
    hide TypedApplied, TokenOf, Touches;
    if ops != [] {
      UntouchedProviderStays(t, ops[..|ops| - 1], name);
      OtherOpKeepsToken(TypedRun(t, ops[..|ops| - 1]), ops[|ops| - 1], name);
    }
  }

  lemma OtherOpKeepsToken(t: Typed, op: Op, name: string)
    requires !Touches(op, name)
    ensures TokenOf(TypedApplied(t, op), name) == TokenOf(t, name)
  {
  }

  lemma {:induction false} TypedRunConcat(t: Typed, xs: seq<Op>, ys: seq<Op>)
    ensures TypedRun(t, xs + ys) == TypedRun(TypedRun(t, xs), ys)
  {
    hide TypedApplied;
    if ys == [] {
      assert xs + ys == xs;
    } else {
      assert (xs + ys)[..|xs + ys| - 1] == xs + ys[..|ys| - 1];
      TypedRunConcat(t, xs, ys[..|ys| - 1]);
    }
  }

  /** A stored API key resolves back unchanged after any operations that do not concern that provider. */
  lemma StoredKeyResolves(c: Codec<Credential>, before: seq<Op>, name: string, key: string, later: seq<Op>)
    requires RoundTrips(c) && forall i :: 0 <= i < |later| ==> !Touches(later[i], name)
    ensures Resolved(c, Run(c, map[], before + [StoreApiKey(name, key)] + later), STORE_PREFIX + name) == Some(key)
  {
    hide Represents, RoundTrips, Applied, Resolved;
    var ops := before + [StoreApiKey(name, key)];
    EmptyIsRepresented(c);
    RunRefines(c, map[], EMPTY, ops + later);
    ResolveReadsTheProvider(c, Run(c, map[], ops + later), TypedRun(EMPTY, ops + later), name);
    TypedRunConcat(EMPTY, ops, later);
    UntouchedProviderStays(TypedRun(EMPTY, ops), later, name);
    assert ops[..|ops| - 1] == before;
  }

  /** A provider without a stored credential resolves to nothing: never stored, or removed and not stored since. */
  lemma RemovedProviderIsGone(c: Codec<Credential>, before: seq<Op>, name: string, later: seq<Op>)
    requires RoundTrips(c) && forall i :: 0 <= i < |later| ==> !Touches(later[i], name)
    ensures Resolved(c, Run(c, map[], before + [RemoveProvider(name)] + later), STORE_PREFIX + name) == None
  {
    hide Represents, RoundTrips, Applied, Resolved;
    var ops := before + [RemoveProvider(name)];
    EmptyIsRepresented(c);
    RunRefines(c, map[], EMPTY, ops + later);
    ResolveReadsTheProvider(c, Run(c, map[], ops + later), TypedRun(EMPTY, ops + later), name);
    TypedRunConcat(EMPTY, ops, later);
    UntouchedProviderStays(TypedRun(EMPTY, ops), later, name);
    assert ops[..|ops| - 1] == before;
  }

  /** No vault operation writes a bearer token: a `store:` bearer resolves only if something else put it there. */
  lemma {:induction false} NoOperationStoresBearers(
      c: Codec<Credential>, s: map<string, string>, ops: seq<Op>, token: string)
    ensures ResolvedBearer(Run(c, s, ops), token) == ResolvedBearer(s, token)
  {
    if ops != [] {
      NoOperationStoresBearers(c, s, ops[..|ops| - 1], token);
      if STORE_PREFIX <= token {
        var name, op := token[|STORE_PREFIX|..], ops[|ops| - 1];
        match op
        case StoreApiKey(n, _) => KeysAreApart(n, name);
        case StoreOAuth(n, _, _, _) => KeysAreApart(n, name);
        case RemoveProvider(n) => KeysAreApart(n, name);
        case SetMcpCredentials(n, _) => KeysAreApart(n, name);
        case ClearMcpCredentials(n) => KeysAreApart(n, name);
        case SetMcpState(n, _) => KeysAreApart(n, name);
        case DeleteMcpState(n) => KeysAreApart(n, name);
      }
    }
  }

  // ---- What is read back ----

  /** The key an operation writes or deletes. */
  function KeyOf(op: Op): string
  {
    match op
    case StoreApiKey(n, _) => "provider:" + n
    case StoreOAuth(n, _, _, _) => "provider:" + n
    case RemoveProvider(n) => "provider:" + n
    case SetMcpCredentials(n, _) => "mcp:cred:" + n
    case ClearMcpCredentials(n) => "mcp:cred:" + n
    case SetMcpState(n, _) => "mcp:state:" + n
    case DeleteMcpState(n) => "mcp:state:" + n
  }

  /** What the string map holds after an operation, spelled out: the very credential, or nothing any more. */
  ghost predicate Took(c: Codec<Credential>, m: map<string, string>, op: Op)
  {
    match op
    case StoreApiKey(n, key) => "provider:" + n in m && c.dec(m["provider:" + n]) == Some(ApiKey(key))
    case StoreOAuth(n, access, refresh, expiresAt) =>
      "provider:" + n in m && c.dec(m["provider:" + n]) == Some(OAuth(access, refresh, expiresAt))
    case RemoveProvider(n) => "provider:" + n !in m
    case SetMcpCredentials(n, creds) => "mcp:cred:" + n in m && m["mcp:cred:" + n] == creds
    case ClearMcpCredentials(n) => "mcp:cred:" + n !in m
    case SetMcpState(n, state) => "mcp:state:" + n in m && m["mcp:state:" + n] == state
    case DeleteMcpState(n) => "mcp:state:" + n !in m
  }

  /** From any contents, the last operation on a key decides what it holds. */
  lemma LastOperationDecides(c: Codec<Credential>, s: map<string, string>, before: seq<Op>, op: Op, later: seq<Op>)
    requires RoundTrips(c) && forall i :: 0 <= i < |later| ==> KeyOf(later[i]) != KeyOf(op)
    ensures Took(c, Run(c, s, before + [op] + later), op)
  {
    hide RoundTrips, Run, Took;
    TakesAtOnce(c, Run(c, s, before), op);
    RunSnoc(c, s, before, op);
    RunConcat(c, s, before + [op], later);
    OthersLeaveTheKey(c, Run(c, s, before + [op]), later, KeyOf(op));
    SameUnderItsKey(c, Run(c, s, before + [op]), Run(c, s, before + [op] + later), op);
  }

  lemma TakesAtOnce(c: Codec<Credential>, s: map<string, string>, op: Op)
    requires RoundTrips(c)
    ensures Took(c, Applied(c, s, op), op)
  {
  }

  lemma SameUnderItsKey(c: Codec<Credential>, m: map<string, string>, m': map<string, string>, op: Op)
    requires Took(c, m, op) && (KeyOf(op) in m <==> KeyOf(op) in m') && (KeyOf(op) in m ==> m[KeyOf(op)] == m'[KeyOf(op)])
    ensures Took(c, m', op)
  {
  }

  lemma RunSnoc(c: Codec<Credential>, s: map<string, string>, ops: seq<Op>, op: Op)
    ensures Run(c, s, ops + [op]) == Applied(c, Run(c, s, ops), op)
  {
    assert (ops + [op])[..|ops|] == ops;
  }

  lemma {:induction false} RunConcat(c: Codec<Credential>, s: map<string, string>, xs: seq<Op>, ys: seq<Op>)
    ensures Run(c, s, xs + ys) == Run(c, Run(c, s, xs), ys)
  {
    hide Applied;
    if ys == [] {
      assert xs + ys == xs;
    } else {
      assert (xs + ys)[..|xs + ys| - 1] == xs + ys[..|ys| - 1];
      RunConcat(c, s, xs, ys[..|ys| - 1]);
    }
  }

  lemma {:induction false} OthersLeaveTheKey(c: Codec<Credential>, s: map<string, string>, ops: seq<Op>, key: string)
    requires forall i :: 0 <= i < |ops| ==> KeyOf(ops[i]) != key
    ensures key in Run(c, s, ops) <==> key in s
    ensures key in s ==> Run(c, s, ops)[key] == s[key]
  {
    if ops != [] { OthersLeaveTheKey(c, s, ops[..|ops| - 1], key); }
  }

  /**
   * References that start with `store:` stand for what is stored under the name behind it, an API key or an access
   * token; there is nothing for a name that is not stored or cannot be read. A bearer without `store:` is meant as it is.
   */
  lemma WhatReferencesResolveTo(c: Codec<Credential>, s: map<string, string>, name: string, text: string)
    ensures text[..if |text| < 6 then |text| else 6] != "store:" ==> Resolved(c, s, text) == None && ResolvedBearer(s, text) == Ok(text)
    ensures "provider:" + name !in s ==> Resolved(c, s, "store:" + name) == None
    ensures "provider:" + name in s ==>
      match c.dec(s["provider:" + name])
      case None => Resolved(c, s, "store:" + name) == None
      case Some(ApiKey(key)) => Resolved(c, s, "store:" + name) == Some(key)
      case Some(OAuth(access, _, _)) => Resolved(c, s, "store:" + name) == Some(access)
    ensures ResolvedBearer(s, "store:" + name) ==
      if "mcp:bearer:" + name in s then Ok(s["mcp:bearer:" + name]) else Err(KeyNotFound("mcp:bearer:" + name))
  {
    assert ("store:" + name)[6..] == name;
  }

  // ---- Listing providers ----

  lemma ShownIff(c: Codec<Credential>, s: map<string, string>, t: Typed, key: string, name: string)
    requires RoundTrips(c) && Represents(c, s, t)
    ensures key == ProviderKey(name) ==> Shown(c, s, key) == if name in t.providers then [Summary(name, t.providers[name])] else []
    ensures key != ProviderKey(name) ==> forall e :: e in Shown(c, s, key) ==> e.name != name
  {
    if key == ProviderKey(name) {
      assert key[|PROVIDER_PREFIX|..] == name && PROVIDER_PREFIX <= key;
      assert Agrees(c, s, t, name);
      if name in t.providers { assert c.dec(c.enc(t.providers[name])) == Some(t.providers[name]); }
    } else if PROVIDER_PREFIX <= key {
      assert key == PROVIDER_PREFIX + key[|PROVIDER_PREFIX|..];
    }
  }

  /** The entries the listing holds for one provider name. */
  function EntriesFor(entries: seq<ProviderEntry>, name: string): seq<ProviderEntry>
  {
    if entries == [] then []
    else EntriesFor(entries[..|entries| - 1], name) + if entries[|entries| - 1].name == name then [entries[|entries| - 1]] else []
  }

  lemma EntriesForConcat(xs: seq<ProviderEntry>, ys: seq<ProviderEntry>, name: string)
    requires |ys| <= 1
    ensures EntriesFor(xs + ys, name) == EntriesFor(xs, name) + if |ys| == 1 && ys[0].name == name then ys else []
  {
    if |ys| == 1 { assert (xs + ys)[..|xs|] == xs && ys == [ys[0]]; } else { assert xs + ys == xs; }
  }

  /**
   * Whatever keys the backend lists, each once, a provider is shown iff it is stored and its key is listed, once and
   * with its own credential: a stale index hides providers but never makes one up.
   */
  lemma {:induction false} ListingShowsStoredAndListed(
      c: Codec<Credential>, s: map<string, string>, t: Typed, keys: seq<string>, name: string)
    requires RoundTrips(c) && Represents(c, s, t) && NoDuplicates(keys)
    ensures EntriesFor(Listed(c, s, keys), name) ==
      if ProviderKey(name) in keys && name in t.providers then [Summary(name, t.providers[name])] else []
  {
    hide Represents, RoundTrips, Shown, EntriesFor, Summary, ProviderKey;
    if keys == [] {
      NoEntries(name);
    } else {
      var init, key := keys[..|keys| - 1], keys[|keys| - 1];
      ListingShowsStoredAndListed(c, s, t, init, name);
      ShownIff(c, s, t, key, name);
      ShownIsShort(c, s, key);
      EntriesForConcat(Listed(c, s, init), Shown(c, s, key), name);
      SummaryName(name, t);
    }
  }

  /** A provider is listed with its kind and, for a token, its expiry; a credential that cannot be read is left out. */
  lemma HowAProviderIsShown(c: Codec<Credential>, s: map<string, string>, name: string)
    requires "provider:" + name in s
    ensures Shown(c, s, "provider:" + name) ==
      match c.dec(s["provider:" + name])
      case None => []
      case Some(ApiKey(_)) => [ProviderEntry(name, ApiKeyType, None)]
      case Some(OAuth(_, _, expiresAt)) => [ProviderEntry(name, OAuthType, expiresAt)]
  {
    assert ("provider:" + name)[9..] == name;
  }

  lemma NoEntries(name: string)
    ensures EntriesFor([], name) == []
  {
  }

  lemma SummaryName(name: string, t: Typed)
    ensures name in t.providers ==> Summary(name, t.providers[name]).name == name
  {
  }

  lemma ShownIsShort(c: Codec<Credential>, s: map<string, string>, key: string)
    ensures |Shown(c, s, key)| <= 1
  {
  }

  /** With the index in order the listing is exact: every stored provider once, and nothing else. */
  lemma ListingIsExact(
      kc: Codec<seq<string>>, c: Codec<Credential>, entries: map<string, string>, t: Typed, name: string)
    requires RoundTrips(c) && IndexAgrees(kc, entries) && Represents(c, Secrets(entries), t)
    ensures EntriesFor(Listed(c, Secrets(entries), Index(kc, entries).value), name) ==
      if name in t.providers then [Summary(name, t.providers[name])] else []
  {
    hide ProviderKey, EntriesFor, Listed, Summary;
    ListingShowsStoredAndListed(c, Secrets(entries), t, Index(kc, entries).value, name);
    assert Agrees(c, Secrets(entries), t, name);
  }
}
