/** Handing a resolved MCP server set to a CLI request, and the reader that asks whether one was handed. */
module McpForwarding {
  import opened Wrappers

  /** A configuration value; Null is the None the encoder skips. */
  datatype Value = Null | Bool(b: bool) | Other(id: nat)

  type Config = map<string, Value>

  /** A server by name; one that is no table has no configuration. */
  datatype Server = Server(name: string, config: Option<Config>)

  /** How the provider takes servers: not at all, as JSON, or as dotted overrides. */
  datatype Transport = NoTransport | Json | Dotted

  datatype Request = Request(servers: Option<seq<Server>>, strict: bool,
                             overrides: map<string, Value>, secrets: map<string, Config>)

  datatype Result = Refused(server: string) | Done(forwarded: bool, request: Request)

  const PREFIX := "mcp_servers."
  const ENABLED := "enabled"

  const FIELDS: seq<string> :=
    ["command", "args", "env", "url", "cwd", "env_vars", "startup_timeout_ms", "enabled", "required",
     "bearer_token_env_var", "http_headers", "env_http_headers"]

  predicate Secret(field: string) { field == "env" || field == "http_headers" }

  function Key(server: string, field: string): string { PREFIX + server + "." + field }

  predicate Dotless(field: string) { forall i :: 0 <= i < |field| ==> field[i] != '.' }

  predicate Forwardable(s: Server) {
    s.config.Some? && ("command" in s.config.value || "url" in s.config.value)
  }

  predicate Supported(s: Server) {
    s.config.Some? ==> forall k :: k in s.config.value ==> k in FIELDS
  }

  /** The value of a field, where the server is forwarded and sets it. */
  function Sent(s: Server, field: string): Option<Value> {
    if Forwardable(s) && field in FIELDS && field in s.config.value && s.config.value[field] != Null
    then Some(s.config.value[field]) else None
  }

  // ---------- The encoder ----------

  /** One server's fields, the first n of them, written over what stands. */
  function WriteFields(s: Server, n: nat, overrides: map<string, Value>, secret: Config): (map<string, Value>, Config)
    requires n <= |FIELDS|
  {
    if n == 0 then (overrides, secret)
    else
      var (o, c) := WriteFields(s, n - 1, overrides, secret);
      var field := FIELDS[n - 1];
      if Sent(s, field).None? then (o, c)
      else if Secret(field) then (o, c[field := Sent(s, field).value])
      else (o[Key(s.name, field) := Sent(s, field).value], c)
  }

  function WriteServers(servers: seq<Server>, n: nat, overrides: map<string, Value>)
    : (map<string, Value>, map<string, Config>)
    requires n <= |servers|
  {
    if n == 0 then (overrides, map[])
    else
      var (o, secrets) := WriteServers(servers, n - 1, overrides);
      var (o', c) := WriteFields(servers[n - 1], |FIELDS|, o, map[]);
      (o', if c == map[] then secrets else secrets[servers[n - 1].name := c])
  }

  function EnabledKeys(names: set<string>): set<string> { set n | n in names :: Key(n, ENABLED) }

  function Disabled(overrides: map<string, Value>, excluded: set<string>): map<string, Value> {
    overrides + map k | k in EnabledKeys(excluded) :: Bool(false)
  }

  predicate Rejected(s: Server) { Forwardable(s) && !Supported(s) }

  predicate FirstRejected(servers: seq<Server>, i: nat) {
    i < |servers| && Rejected(servers[i]) && forall j :: 0 <= j < i ==> !Rejected(servers[j])
  }

  /** The dotted branch: reject what the schema does not know, write the rest, disable what is left out. */
  method Apply(request: Request, servers: Option<seq<Server>>, transport: Transport,
               exclusive: bool, allowed: Option<set<string>>, discovered: set<string>)
    returns (r: Result)
    ensures servers.None? || transport.NoTransport? ==> r == Done(false, request)
    ensures servers.Some? && transport.Json? ==>
              r == Done(true, request.(servers := servers, strict := request.strict || exclusive))
    ensures servers.Some? && transport.Dotted? ==>
              if exists i :: 0 <= i < |servers.value| && Rejected(servers.value[i])
              then exists i: nat :: FirstRejected(servers.value, i) && r == Refused(servers.value[i].name)
              else r == Done(true, Encoded(request, servers.value, exclusive, allowed, discovered))
  {
    if servers.None? || transport.NoTransport? {
      return Done(false, request);
    }
    if transport.Json? {
      return Done(true, request.(servers := servers, strict := request.strict || exclusive));
    }
    hide FIELDS, Rejected, WriteServers, Disabled;
    var overrides, secrets, refused := EncodeServers(servers.value, request.overrides);
    if refused.Some? {
      return Refused(refused.value);
    }
    var excluded := {};
    if exclusive {
      excluded := discovered - (if allowed.Some? then allowed.value else set s | s in servers.value :: s.name);
    }
    overrides := Disable(overrides, excluded);
    return Done(true, request.(overrides := overrides,
                               secrets := if secrets == map[] then request.secrets else secrets));
  }

  method EncodeServers(servers: seq<Server>, before: map<string, Value>)
    returns (overrides: map<string, Value>, secrets: map<string, Config>, refused: Option<string>)
    ensures refused.Some? ==> exists i: nat :: FirstRejected(servers, i) && refused == Some(servers[i].name)
    ensures refused.None? ==> forall i :: 0 <= i < |servers| ==> !Rejected(servers[i])
    ensures refused.None? ==> (overrides, secrets) == WriteServers(servers, |servers|, before)
  {
    hide FIELDS, Supported, Forwardable, WriteFields;
    overrides, secrets, refused := before, map[], None;
    for i := 0 to |servers|
      invariant (overrides, secrets) == WriteServers(servers, i, before)
      invariant forall j :: 0 <= j < i ==> !Rejected(servers[j])
    {
      var secret, ok;
      overrides, secret, ok := EncodeServer(servers[i], overrides);
      if !ok {
        assert FirstRejected(servers, i);
        refused := Some(servers[i].name);
        return;
      }
      if secret != map[] {
        secrets := secrets[servers[i].name := secret];
      }
    }
  }

  /** Each name in turn is switched off; the order leaves no trace. */
  method Disable(before: map<string, Value>, excluded: set<string>) returns (overrides: map<string, Value>)
    ensures overrides == Disabled(before, excluded)
  {
    hide Disabled;
    overrides := before;
    var left := excluded;
    DisabledNone(before);
    assert excluded - left == {};
    while left != {}
      invariant left <= excluded
      invariant overrides == Disabled(before, excluded - left)
      decreases left
    {
      var name :| name in left;
      DisabledGrows(before, excluded - left, name);
      assert excluded - (left - {name}) == excluded - left + {name};
      overrides, left := overrides[Key(name, ENABLED) := Bool(false)], left - {name};
    }
    assert excluded - left == excluded;
  }

  lemma DisabledNone(o: map<string, Value>)
    ensures Disabled(o, {}) == o
  {}

  lemma DisabledGrows(o: map<string, Value>, names: set<string>, name: string)
    ensures Disabled(o, names + {name}) == Disabled(o, names)[Key(name, ENABLED) := Bool(false)]
  {
    hide Key;
    assert EnabledKeys(names + {name}) == EnabledKeys(names) + {Key(name, ENABLED)};
  }

  method EncodeServer(s: Server, before: map<string, Value>)
    returns (overrides: map<string, Value>, secret: Config, ok: bool)
    ensures ok <==> !Rejected(s)
    ensures ok ==> (overrides, secret) == WriteFields(s, |FIELDS|, before, map[])
  {
    hide Key, Secret;
    overrides, secret, ok := before, map[], true;
    if s.config.None? || !("command" in s.config.value || "url" in s.config.value) {
      NothingSent(s, |FIELDS|, before, map[]);
      return;
    }
    var config := s.config.value;
    if exists k :: k in config && k !in FIELDS {
      ok := false;
      return;
    }
    for n := 0 to |FIELDS|
      invariant (overrides, secret) == WriteFields(s, n, before, map[])
    {
      var field := FIELDS[n];
      if field in config && config[field] != Null {
        if Secret(field) {
          secret := secret[field := config[field]];
        } else {
          overrides := overrides[Key(s.name, field) := config[field]];
        }
      }
    }
  }

  function Excluded(servers: seq<Server>, exclusive: bool, allowed: Option<set<string>>, discovered: set<string>)
    : set<string>
  {
    if !exclusive then {}
    else discovered - (if allowed.Some? then allowed.value else set s | s in servers :: s.name)
  }

  function Encoded(request: Request, servers: seq<Server>, exclusive: bool, allowed: Option<set<string>>,
                   discovered: set<string>): Request
  {
    var (overrides, secrets) := WriteServers(servers, |servers|, request.overrides);
    request.(overrides := Disabled(overrides, Excluded(servers, exclusive, allowed, discovered)),
             secrets := if secrets == map[] then request.secrets else secrets)
  }

  lemma {:induction false} NothingSent(s: Server, n: nat, overrides: map<string, Value>, secret: Config)
    requires n <= |FIELDS| && !Forwardable(s)
    ensures WriteFields(s, n, overrides, secret) == (overrides, secret)
  {
    if n > 0 {
      NothingSent(s, n - 1, overrides, secret);
    }
  }

  // ---------- The reader ----------

  predicate EndsWith(text: string, tail: string) {
    |tail| <= |text| && text[|text| - |tail|..] == tail
  }

  /** An entry that says more than that a server is off. */
  predicate Carries(key: string, value: Value) {
    PREFIX <= key && !(EndsWith(key, "." + ENABLED) && value == Bool(false))
  }

  predicate RequestCarriesForwarded(request: Request) {
    (request.servers.Some? && request.servers.value != [])
    || exists key :: key in request.overrides && Carries(key, request.overrides[key])
  }

  // ---------- Dotted keys ----------

  /** The last dot of a key splits it, so server and field can be told apart even for dotted names. */
  lemma LastDotSplits(a: string, f: string, b: string, g: string)
    requires a + "." + f == b + "." + g && Dotless(f) && Dotless(g)
    ensures a == b && f == g
  {
    var k := a + "." + f;
    assert k[|a|] == '.' && k[|b|] == '.';
    forall i | |a| < i < |k| ensures k[i] != '.' { assert k[i] == f[i - |a| - 1]; }
    forall i | |b| < i < |k| ensures k[i] != '.' { assert k[i] == g[i - |b| - 1]; }
    assert |a| == |b|;
    assert a == k[..|a|] && b == k[..|b|];
    assert f == k[|a| + 1..] && g == k[|b| + 1..];
  }

  lemma FieldsAreDotless()
    ensures forall f :: f in FIELDS ==> Dotless(f)
    ensures ENABLED in FIELDS && !Secret(ENABLED)
  {}

  lemma KeysAreInjective(s: string, f: string, t: string, g: string)
    requires f in FIELDS && g in FIELDS && Key(s, f) == Key(t, g)
    ensures s == t && f == g
  {
    FieldsAreDotless();
    LastDotSplits(PREFIX + s, f, PREFIX + t, g);
    assert s == (PREFIX + s)[|PREFIX|..] && t == (PREFIX + t)[|PREFIX|..];
  }

  /** The reader's suffix test recognises the enabled field, and nothing else. */
  lemma SuffixMeansEnabled(s: string, f: string)
    requires f in FIELDS
    ensures EndsWith(Key(s, f), "." + ENABLED) <==> f == ENABLED
    ensures PREFIX <= Key(s, f)
  {
    FieldsAreDotless();
    var k, tail := Key(s, f), "." + ENABLED;
    if f == ENABLED {
      assert k[|k| - |tail|..] == tail;
    }
    if EndsWith(k, tail) {
      var p := k[..|k| - |tail|];
      assert k == p + "." + ENABLED;
      LastDotSplits(PREFIX + s, f, p, ENABLED);
    }
  }

  // ---------- What is written where ----------

  /** Field f of the server goes to the dotted overrides. */
  predicate Public(s: Server, f: string) { Sent(s, f).Some? && !Secret(f) }

  predicate Hidden(s: Server, f: string) { Sent(s, f).Some? && Secret(f) }

  function Get(m: map<string, Value>, k: string): Option<Value> { if k in m then Some(m[k]) else None }

  function SecretAt(secrets: map<string, Config>, name: string, f: string): Option<Value> {
    if name in secrets then Get(secrets[name], f) else None
  }

  /** What the first n fields of a server write at a dotted key. */
  function WrittenAt(s: Server, n: nat, k: string): Option<Value>
    requires n <= |FIELDS|
  {
    if n == 0 then None
    else if Public(s, FIELDS[n - 1]) && k == Key(s.name, FIELDS[n - 1]) then Sent(s, FIELDS[n - 1])
    else WrittenAt(s, n - 1, k)
  }

  lemma {:induction false} OverridesAt(s: Server, n: nat, o: map<string, Value>, c: Config, k: string)
    requires n <= |FIELDS|
    ensures Get(WriteFields(s, n, o, c).0, k)
         == if WrittenAt(s, n, k).Some? then WrittenAt(s, n, k) else Get(o, k)
  {
    if n > 0 {
      OverridesAt(s, n - 1, o, c, k);
    }
  }

  lemma {:induction false} SecretsAt(s: Server, n: nat, o: map<string, Value>, f: string)
    requires n <= |FIELDS|
    ensures Get(WriteFields(s, n, o, map[]).1, f)
         == if f in FIELDS[..n] && Hidden(s, f) then Sent(s, f) else None
  {
    hide *;
    hide FIELDS;
    if n == 0 {
      NoSecretYet(s, o, f);
    } else {
      SecretStep(s, n, o, f);
      SecretsAt(s, n - 1, o, f);
      assert FIELDS[..n] == FIELDS[..n - 1] + [FIELDS[n - 1]];
    }
  }

  lemma NoSecretYet(s: Server, o: map<string, Value>, f: string)
    ensures Get(WriteFields(s, 0, o, map[]).1, f) == None
  {}

  lemma SecretStep(s: Server, n: nat, o: map<string, Value>, f: string)
    requires 0 < n <= |FIELDS|
    ensures Get(WriteFields(s, n, o, map[]).1, f)
         == if f == FIELDS[n - 1] && Hidden(s, f) then Sent(s, f) else Get(WriteFields(s, n - 1, o, map[]).1, f)
  {
    hide FIELDS, Sent, Secret, Key;
  }

  lemma {:induction false} WrittenAtKey(s: Server, n: nat, t: string, f: string)
    requires n <= |FIELDS| && f in FIELDS
    ensures WrittenAt(s, n, Key(t, f))
         == if t == s.name && f in FIELDS[..n] && Public(s, f) then Sent(s, f) else None
  {
    hide FIELDS, Sent, Key, Secret;
    if n > 0 {
      WrittenAtKey(s, n - 1, t, f);
      assert FIELDS[..n] == FIELDS[..n - 1] + [FIELDS[n - 1]];
      assert FIELDS[n - 1] in FIELDS;
      if Key(t, f) == Key(s.name, FIELDS[n - 1]) {
        KeysAreInjective(t, f, s.name, FIELDS[n - 1]);
      }
    }
  }

  lemma {:induction false} WrittenKeysAreDotted(s: Server, n: nat, k: string)
    requires n <= |FIELDS| && WrittenAt(s, n, k).Some?
    ensures exists f :: f in FIELDS && k == Key(s.name, f) && Public(s, f)
  {
    if !(Public(s, FIELDS[n - 1]) && k == Key(s.name, FIELDS[n - 1])) {
      WrittenKeysAreDotted(s, n - 1, k);
    } else {
      assert FIELDS[n - 1] in FIELDS;
    }
  }

  predicate Distinct(servers: seq<Server>) {
    forall i, j :: 0 <= i < j < |servers| ==> servers[i].name != servers[j].name
  }

  /** The value of a dotted key after n servers: the server it names decides, if it sends that field. */
  lemma {:induction false} ServersAt(servers: seq<Server>, n: nat, o: map<string, Value>, i: nat, f: string)
    requires Distinct(servers) && i < n <= |servers| && f in FIELDS
    ensures Get(WriteServers(servers, n, o).0, Key(servers[i].name, f))
         == if Public(servers[i], f) then Sent(servers[i], f) else Get(o, Key(servers[i].name, f))
  {
    hide FIELDS, Key, Sent;
    var k := Key(servers[i].name, f);
    var before := WriteServers(servers, n - 1, o).0;
    OverridesAt(servers[n - 1], |FIELDS|, before, map[], k);
    WrittenAtKey(servers[n - 1], |FIELDS|, servers[i].name, f);
    assert FIELDS[..|FIELDS|] == FIELDS;
    if i < n - 1 {
      ServersAt(servers, n - 1, o, i, f);
    } else {
      NotYetNamed(servers, n - 1, o, servers[i].name, f);
    }
  }

  lemma {:induction false} NotYetNamed(servers: seq<Server>, n: nat, o: map<string, Value>, name: string, f: string)
    requires n <= |servers| && f in FIELDS && forall i :: 0 <= i < n ==> servers[i].name != name
    ensures Get(WriteServers(servers, n, o).0, Key(name, f)) == Get(o, Key(name, f))
    ensures name !in WriteServers(servers, n, o).1
  {
    if n > 0 {
      NotYetNamed(servers, n - 1, o, name, f);
      OverridesAt(servers[n - 1], |FIELDS|, WriteServers(servers, n - 1, o).0, map[], Key(name, f));
      WrittenAtKey(servers[n - 1], |FIELDS|, name, f);
    }
  }

  lemma {:induction false} ServerSecretsAt(servers: seq<Server>, n: nat, o: map<string, Value>, i: nat, f: string)
    requires Distinct(servers) && i < n <= |servers| && f in FIELDS
    ensures SecretAt(WriteServers(servers, n, o).1, servers[i].name, f)
         == if Hidden(servers[i], f) then Sent(servers[i], f) else None
  {
    hide FIELDS, Hidden, Sent, WriteFields, Key;
    SecretsAt(servers[n - 1], |FIELDS|, WriteServers(servers, n - 1, o).0, f);
    assert FIELDS[..|FIELDS|] == FIELDS;
    if i < n - 1 {
      ServerSecretsAt(servers, n - 1, o, i, f);
    } else {
      NotYetNamed(servers, n - 1, o, servers[i].name, f);
    }
  }

  /** A key no server writes is as it was. */
  lemma {:induction false} OtherKeysStay(servers: seq<Server>, n: nat, o: map<string, Value>, k: string)
    requires n <= |servers|
    ensures Get(WriteServers(servers, n, o).0, k) == Get(o, k)
            || exists i, f :: 0 <= i < n && f in FIELDS && k == Key(servers[i].name, f) && Public(servers[i], f)
  {
    if n > 0 {
      OtherKeysStay(servers, n - 1, o, k);
      OverridesAt(servers[n - 1], |FIELDS|, WriteServers(servers, n - 1, o).0, map[], k);
      if WrittenAt(servers[n - 1], |FIELDS|, k).Some? {
        WrittenKeysAreDotted(servers[n - 1], |FIELDS|, k);
      }
    }
  }

  /** Forwarding is a partition: a field a server sends lands in exactly one place, the secret profile or
      the overrides, by its name alone; the one thing that can displace it there is disabling that very
      server.  A field it does not send lands in neither. */
  lemma FieldsArePartitioned(request: Request, servers: seq<Server>, exclusive: bool,
                             allowed: Option<set<string>>, discovered: set<string>, i: nat, f: string)
    requires Distinct(servers) && i < |servers| && f in FIELDS && request.secrets == map[]
    ensures var r, s, off := Encoded(request, servers, exclusive, allowed, discovered), servers[i],
                             Excluded(servers, exclusive, allowed, discovered);
            var public, secret := Get(r.overrides, Key(s.name, f)), SecretAt(r.secrets, s.name, f);
            && secret == (if Sent(s, f).Some? && Secret(f) then Sent(s, f) else None)
            && public == (if f == ENABLED && s.name in off then Some(Bool(false))
                          else if Sent(s, f).Some? && !Secret(f) then Sent(s, f)
                          else Get(request.overrides, Key(s.name, f)))
  {
    ServersAt(servers, |servers|, request.overrides, i, f);
    ServerSecretsAt(servers, |servers|, request.overrides, i, f);
    DisabledAt(WriteServers(servers, |servers|, request.overrides).0,
               Excluded(servers, exclusive, allowed, discovered), servers[i].name, f);
  }

  lemma DisabledAt(o: map<string, Value>, off: set<string>, name: string, f: string)
    requires f in FIELDS
    ensures Get(Disabled(o, off), Key(name, f))
         == if f == ENABLED && name in off then Some(Bool(false)) else Get(o, Key(name, f))
  {
    FieldsAreDotless();
    if Key(name, f) in EnabledKeys(off) {
      var n :| n in off && Key(n, ENABLED) == Key(name, f);
      KeysAreInjective(n, ENABLED, name, f);
    }
    if f == ENABLED && name in off {
      assert Key(name, f) in EnabledKeys(off);
    }
  }

  /** With every handed server allowed, the servers switched off are exactly the discovered ones that are
      not, over and above those handed with enabled = False. */
  lemma DisablesAreExact(request: Request, servers: seq<Server>, allowed: set<string>, discovered: set<string>,
                         name: string)
    requires Distinct(servers) && Key(name, ENABLED) !in request.overrides
    requires forall i :: 0 <= i < |servers| ==> servers[i].name in allowed
    ensures var r := Encoded(request, servers, true, Some(allowed), discovered);
            Get(r.overrides, Key(name, ENABLED)) == Some(Bool(false))
            <==> name in discovered - allowed
                 || exists i :: 0 <= i < |servers| && servers[i].name == name
                                && Sent(servers[i], ENABLED) == Some(Bool(false))
  {
    FieldsAreDotless();
    DisabledAt(WriteServers(servers, |servers|, request.overrides).0, discovered - allowed, name, ENABLED);
    if i :| 0 <= i < |servers| && servers[i].name == name {
      ServersAt(servers, |servers|, request.overrides, i, ENABLED);
    } else {
      NotYetNamed(servers, |servers|, request.overrides, name, ENABLED);
    }
  }

  /** The reader answers for the writer: on a request that carried no server entries, it says yes exactly
      when some public field was forwarded that says more than that its server is off. */
  lemma ReaderSeesWhatWasForwarded(request: Request, servers: seq<Server>, exclusive: bool,
                                   allowed: Option<set<string>>, discovered: set<string>)
    requires Distinct(servers) && request.servers.None?
    requires forall k :: k in request.overrides ==> !(PREFIX <= k)
    ensures var off := Excluded(servers, exclusive, allowed, discovered);
            RequestCarriesForwarded(Encoded(request, servers, exclusive, allowed, discovered))
            <==> exists i, f :: 0 <= i < |servers| && f in FIELDS && Speaks(servers[i], f, off)
  {
    var off := Excluded(servers, exclusive, allowed, discovered);
    var o := WriteServers(servers, |servers|, request.overrides).0;
    var r := Encoded(request, servers, exclusive, allowed, discovered);
    FieldsAreDotless();
    if RequestCarriesForwarded(r) {
      var k :| k in r.overrides && Carries(k, r.overrides[k]);
      CarryingKeyIsSent(request, servers, off, k);
    }
    if i, f :| 0 <= i < |servers| && f in FIELDS && Speaks(servers[i], f, off) {
      ServersAt(servers, |servers|, request.overrides, i, f);
      DisabledAt(o, off, servers[i].name, f);
      SuffixMeansEnabled(servers[i].name, f);
      assert Key(servers[i].name, f) in r.overrides;
    }
  }

  /** A forwarded public field that is not just an "off". */
  predicate Speaks(s: Server, f: string, off: set<string>) {
    Public(s, f) && !(f == ENABLED && (s.name in off || Sent(s, f) == Some(Bool(false))))
  }

  lemma CarryingKeyIsSent(request: Request, servers: seq<Server>, off: set<string>, k: string)
    requires Distinct(servers) && forall q :: q in request.overrides ==> !(PREFIX <= q)
    requires var o := Disabled(WriteServers(servers, |servers|, request.overrides).0, off);
             k in o && Carries(k, o[k])
    ensures exists i, f :: 0 <= i < |servers| && f in FIELDS && Speaks(servers[i], f, off)
  {
    hide WriteServers, Public, Sent, Key, FIELDS;
    var o := WriteServers(servers, |servers|, request.overrides).0;
    FieldsAreDotless();
    if k in EnabledKeys(off) {
      var n :| n in off && k == Key(n, ENABLED);
      SuffixMeansEnabled(n, ENABLED);
      assert false;
    } else {
      OtherKeysStay(servers, |servers|, request.overrides, k);
      var i, f :| 0 <= i < |servers| && f in FIELDS && k == Key(servers[i].name, f) && Public(servers[i], f);
      ServersAt(servers, |servers|, request.overrides, i, f);
      SuffixMeansEnabled(servers[i].name, f);
      DisabledAt(o, off, servers[i].name, f);
      assert Speaks(servers[i], f, off);
    }
  }
}
