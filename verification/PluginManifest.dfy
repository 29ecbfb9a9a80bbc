/** The plugin manifest: what a plugin declares about its actions and peer protocols, and its normal form. */
module PluginManifest {
  import opened Prelude

  const TASK := "task"
  const PEER := "peer"
  const ABI := "fleet.plugin.peer.v1"
  const SOURCE := "source"
  const TARGET := "target"

  datatype ActionSpec = ActionSpec(runtime: string, role: string)

  /** A map of the source that is empty or nil is an empty map. */
  datatype Protocol = Protocol(id: string, abi: string, transport: string, approval: string, roles: map<string, string>)

  datatype Declarations = Declarations(runtime: string, specs: map<string, ActionSpec>, protocols: seq<Protocol>)

  datatype Fault = Invalid

  // ----- strings -----

  /** unicode.IsSpace */
  predicate IsSpace(c: char) {
    || '\t' <= c <= '\r' || c == ' ' || c == '\U{0085}' || c == '\U{00A0}' || c == '\U{1680}'
    || '\U{2000}' <= c <= '\U{200A}' || c == '\U{2028}' || c == '\U{2029}' || c == '\U{202F}' || c == '\U{205F}' || c == '\U{3000}'
  }

  function TrimLeft(s: string): string {
    if s != "" && IsSpace(s[0]) then TrimLeft(s[1..]) else s
  }

  function TrimRight(s: string): string {
    if s != "" && IsSpace(s[|s| - 1]) then TrimRight(s[..|s| - 1]) else s
  }

  /** strings.TrimSpace */
  function Trim(s: string): string {
    TrimRight(TrimLeft(s))
  }

  predicate Bare(s: string) {
    s != "" ==> !IsSpace(s[0]) && !IsSpace(s[|s| - 1])
  }

  lemma {:induction false} TrimLeftBare(s: string)
    ensures TrimLeft(s) != "" ==> !IsSpace(TrimLeft(s)[0])
  {
    if s != "" && IsSpace(s[0]) { TrimLeftBare(s[1..]); }
  }

  lemma {:induction false} TrimRightBare(s: string)
    ensures TrimRight(s) <= s && (TrimRight(s) != "" ==> !IsSpace(TrimRight(s)[|TrimRight(s)| - 1]))
  {
    if s != "" && IsSpace(s[|s| - 1]) { TrimRightBare(s[..|s| - 1]); }
  }

  lemma TrimTwice(s: string)
    ensures Bare(Trim(s)) && Trim(Trim(s)) == Trim(s)
  {
    TrimLeftBare(s);
    TrimRightBare(TrimLeft(s));
  }

  predicate LowerOrDigit(c: char) {
    'a' <= c <= 'z' || '0' <= c <= '9'
  }

  predicate NameChar(c: char) {
    c == '.' || c == '-' || c == '_' || LowerOrDigit(c)
  }

  predicate NameOk(s: string) {
    0 < |s| <= 80 && forall i :: 0 <= i < |s| ==> NameChar(s[i])
  }

  /** cleanPluginAction */
  function CleanAction(raw: string): Option<string> {
    var s := Trim(raw);
    if NameOk(s) && s != "__proto__" then Some(s) else None
  }

  /** cleanPluginID */
  function CleanId(raw: string): Option<string> {
    var s := Trim(raw);
    if NameOk(s) && LowerOrDigit(s[0]) then Some(s) else None
  }

  // ----- the normal form -----

  function CleanSpec(s: ActionSpec): ActionSpec {
    ActionSpec(Trim(s.runtime), Trim(s.role))
  }

  function CleanSpecs(specs: map<string, ActionSpec>): map<string, ActionSpec> {
    map a | a in specs :: CleanSpec(specs[a])
  }

  function CleanRoles(roles: map<string, string>): map<string, string> {
    map r | r in roles :: Trim(roles[r])
  }

  function CleanProtocol(p: Protocol): Protocol {
    Protocol(Trim(p.id), Trim(p.abi), Trim(p.transport), Trim(p.approval), CleanRoles(p.roles))
  }

  function CleanProtocols(ps: seq<Protocol>): seq<Protocol> {
    seq(|ps|, i requires 0 <= i < |ps| => CleanProtocol(ps[i]))
  }

  function CleanRuntime(raw: string): string {
    if Trim(raw) == "" then TASK else Trim(raw)
  }

  function Cleaned(d: Declarations): Declarations {
    Declarations(CleanRuntime(d.runtime), CleanSpecs(d.specs), CleanProtocols(d.protocols))
  }

  // ----- what a manifest must say, in terms of its clean declarations -----

  predicate SpecOk(s: ActionSpec) {
    if s.runtime == TASK then s.role == "" else s.runtime == PEER && (s.role == SOURCE || s.role == TARGET)
  }

  predicate KeyOk(a: string, actions: seq<string>) {
    CleanAction(a) == Some(a) && a in actions
  }

  predicate EntryOk(a: string, s: ActionSpec, actions: seq<string>) {
    KeyOk(a, actions) && SpecOk(s)
  }

  predicate SpecsOk(actions: seq<string>, specs: map<string, ActionSpec>) {
    && (|specs| != 0 ==> |specs| == |actions|)
    && (forall a :: a in specs ==> EntryOk(a, specs[a], actions))
  }

  predicate HeaderOk(p: Protocol) {
    CleanId(p.id) == Some(p.id) && p.abi == ABI && p.transport == "direct_ordered" && p.approval == "both_once"
  }

  predicate RoleOk(role: string, a: string, actions: seq<string>, specs: map<string, ActionSpec>) {
    a in actions && a in specs && specs[a] == ActionSpec(PEER, role)
  }

  predicate RolesOk(roles: map<string, string>, actions: seq<string>, specs: map<string, ActionSpec>) {
    roles.Keys == {SOURCE, TARGET} && EachRoleOk(roles, actions, specs)
  }

  predicate EachRoleOk(roles: map<string, string>, actions: seq<string>, specs: map<string, ActionSpec>) {
    forall r :: r in roles ==> RoleOk(r, roles[r], actions, specs)
  }

  predicate Mentions(ps: seq<Protocol>, a: string) {
    exists i :: 0 <= i < |ps| && a in ps[i].roles.Values
  }

  /** Two declarations neither share an id nor an action. */
  predicate Apart(p: Protocol, q: Protocol) {
    p.id != q.id && p.roles.Values !! q.roles.Values
  }

  predicate HeadersOk(ps: seq<Protocol>) {
    forall i :: 0 <= i < |ps| ==> HeaderOk(ps[i])
  }

  predicate Placed(ps: seq<Protocol>, actions: seq<string>, specs: map<string, ActionSpec>) {
    && (forall i :: 0 <= i < |ps| ==> RolesOk(ps[i].roles, actions, specs))
    && (forall i, j :: 0 <= i < j < |ps| ==> Apart(ps[i], ps[j]))
  }

  predicate ProtocolsOk(ps: seq<Protocol>, actions: seq<string>, specs: map<string, ActionSpec>) {
    HeadersOk(ps) && Placed(ps, actions, specs)
  }

  predicate AllMentioned(specs: map<string, ActionSpec>, ps: seq<Protocol>) {
    forall a :: a in specs && specs[a].runtime == PEER ==> Mentions(ps, a)
  }

  predicate WellFormed(actions: seq<string>, d: Declarations) {
    && (if d.runtime == TASK then d.protocols == [] else d.runtime == PEER && d.protocols != [])
    && SpecsOk(actions, d.specs) && ProtocolsOk(d.protocols, actions, d.specs) && AllMentioned(d.specs, d.protocols)
  }

  // ----- the normaliser -----

  /** One entry of action_specs. */
  method NormalizeSpec(raw: string, given: ActionSpec, actions: seq<string>) returns (r: Result<ActionSpec, Fault>)
    ensures r.Ok? <==> KeyOk(raw, actions) && SpecOk(CleanSpec(given))
    ensures r.Ok? ==> r.value == CleanSpec(given)
  {
    var spec := given;
    if CleanAction(raw) != Some(raw) || raw !in actions { return Err(Invalid); }
    spec := spec.(runtime := Trim(spec.runtime));
    if spec.runtime == "" || (spec.runtime != TASK && spec.runtime != PEER) { return Err(Invalid); }
    spec := spec.(role := Trim(spec.role));
    if spec.runtime == TASK && spec.role != "" { return Err(Invalid); }
    if spec.runtime == PEER && spec.role != SOURCE && spec.role != TARGET { return Err(Invalid); }
    r := Ok(spec);
  }

  /** The loop over action_specs. */
  method NormalizeSpecs(actions: seq<string>, specs: map<string, ActionSpec>) returns (r: Result<map<string, ActionSpec>, Fault>)
    ensures r.Ok? <==> SpecsOk(actions, CleanSpecs(specs))
    ensures r.Ok? ==> r.value == CleanSpecs(specs)
  {
    ghost var clean := CleanSpecs(specs);
    assert clean.Keys == specs.Keys && |clean.Keys| == |specs.Keys|;
    if |specs| != 0 && |specs| != |actions| { return Err(Invalid); }
    var out: map<string, ActionSpec> := map[];
    var left := specs.Keys;
    while left != {}
      invariant left <= clean.Keys
      invariant forall a :: a in out <==> a in clean && a !in left
      invariant forall a :: a in out ==> out[a] == clean[a]
      invariant forall a :: a in out ==> EntryOk(a, clean[a], actions)
      decreases |left|
    {
      var raw :| raw in left;
      left := left - {raw};
      var spec := NormalizeSpec(raw, specs[raw], actions);
      assert clean[raw] == CleanSpec(specs[raw]);
      if spec.Err? { return Err(Invalid); }
      out := out[raw := spec.value];
    }
    Same(out, clean);
    r := Ok(out);
  }

  lemma Same<V>(m: map<string, V>, n: map<string, V>)
    requires forall k :: k in m <==> k in n
    requires forall k :: k in m ==> m[k] == n[k]
    ensures m == n
  {
  }

  /** The loop over the roles of one protocol; `used` holds the actions the protocols before it refer to. */
  method NormalizeRoles(roles: map<string, string>, actions: seq<string>, specs: map<string, ActionSpec>, used: set<string>)
    returns (r: Result<map<string, string>, Fault>, after: set<string>)
    ensures r.Ok? <==> EachRoleOk(CleanRoles(roles), actions, specs) && CleanRoles(roles).Values !! used
    ensures r.Ok? ==> r.value == CleanRoles(roles) && after == used + CleanRoles(roles).Values
  {
    var out: map<string, string> := map[];
    var left := roles.Keys;
    ghost var clean := CleanRoles(roles);
    after := used;
    while left != {}
      invariant left <= clean.Keys
      invariant forall k :: k in out <==> k in clean && k !in left
      invariant forall k :: k in out ==> out[k] == clean[k] && out[k] !in used
      invariant forall k :: k in out ==> RoleOk(k, clean[k], actions, specs)
      invariant after == used + out.Values
      decreases |left|
    {
      var role :| role in left;
      left := left - {role};
      var action := Trim(roles[role]);
      assert action == clean[role];
      if !RoleOk(role, action, actions, specs) { return Err(Invalid), after; }
      NotYet(out, role, action, actions, specs);
      if action in after {
        assert action in clean.Values;
        return Err(Invalid), after;
      }
      Grown(out, role, action);
      after := after + {action};
      out := out[role := action];
    }
    Same(out, clean);
    r := Ok(out);
  }

  /** Another role of a protocol has an action of another role. */
  lemma NotYet(out: map<string, string>, role: string, action: string, actions: seq<string>, specs: map<string, ActionSpec>)
    requires role !in out && RoleOk(role, action, actions, specs)
    requires forall k :: k in out ==> RoleOk(k, out[k], actions, specs)
    ensures action !in out.Values
  {
  }

  lemma Grown(m: map<string, string>, k: string, v: string)
    requires k !in m
    ensures m[k := v].Values == m.Values + {v}
  {
    forall x | x in m.Values ensures x in m[k := v].Values {
      var j :| j in m && m[j] == x;
      assert m[k := v][j] == x;
    }
    assert m[k := v][k] == v;
  }

  predicate BothRoles(roles: map<string, string>) {
    |roles| == 2 && SOURCE in roles && TARGET in roles && roles[SOURCE] != "" && roles[TARGET] != ""
  }

  /** One protocol, after the ids `seen` and the actions `used`. */
  method NormalizeProtocol(raw: Protocol, actions: seq<string>, specs: map<string, ActionSpec>, seen: set<string>, used: set<string>)
    returns (r: Result<Protocol, Fault>, after: set<string>)
    requires "" !in specs
    ensures r.Ok? <==> var p := CleanProtocol(raw); HeaderOk(p) && p.id !in seen && RolesOk(p.roles, actions, specs) && p.roles.Values !! used
    ensures r.Ok? ==> r.value == CleanProtocol(raw) && after == used + r.value.roles.Values
  {
    var p := raw.(id := Trim(raw.id), abi := Trim(raw.abi), transport := Trim(raw.transport), approval := Trim(raw.approval));
    after := used;
    assert CleanProtocol(raw) == p.(roles := CleanRoles(p.roles));
    if !HeaderOk(p) || p.id in seen { return Err(Invalid), used; }
    if !BothRoles(p.roles) {
      NeedsBothRoles(p.roles, actions, specs);
      return Err(Invalid), used;
    }
    TwoKeys(p.roles);
    assert CleanRoles(p.roles).Keys == p.roles.Keys;
    var roles;
    roles, after := NormalizeRoles(p.roles, actions, specs, used);
    r := if roles.Err? then Err(Invalid) else Ok(p.(roles := roles.value));
  }

  /** The loop over peer_protocols. */
  method NormalizeProtocols(ps: seq<Protocol>, actions: seq<string>, specs: map<string, ActionSpec>)
    returns (r: Result<seq<Protocol>, Fault>, used: set<string>)
    requires "" !in specs
    ensures r.Ok? <==> ProtocolsOk(CleanProtocols(ps), actions, specs)
    ensures r.Ok? ==> r.value == CleanProtocols(ps) && forall a :: a in used <==> Mentions(r.value, a)
  {
    ghost var clean := CleanProtocols(ps);
    var out: seq<Protocol> := [];
    var seen: set<string> := {};
    used := {};
    for n := 0 to |ps|
      invariant out == clean[..n]
      invariant Tracks(out, seen, used)
      invariant ProtocolsOk(out, actions, specs)
    {
      var p, after := NormalizeProtocol(ps[n], actions, specs, seen, used);
      assert clean[n] == CleanProtocol(ps[n]);
      assert clean[..n + 1] == out + [clean[n]];
      Extends(out, clean[n], actions, specs, seen, used);
      if p.Err? {
        FirstPart(clean, n + 1, actions, specs);
        return Err(Invalid), used;
      }
      used := after;
      seen := seen + {p.value.id};
      out := out + [p.value];
    }
    assert clean[..|ps|] == clean;
    r := Ok(out);
  }

  predicate Names(ps: seq<Protocol>, id: string) {
    exists i :: 0 <= i < |ps| && ps[i].id == id
  }

  /** `seen` holds the ids of the protocols and `used` their actions. */
  ghost predicate Tracks(ps: seq<Protocol>, seen: set<string>, used: set<string>) {
    (forall x :: x in seen <==> Names(ps, x)) && (forall a :: a in used <==> Mentions(ps, a))
  }

  lemma TwoKeys(m: map<string, string>)
    requires |m| == 2 && SOURCE in m && TARGET in m
    ensures m.Keys == {SOURCE, TARGET}
  {
    assert SOURCE != TARGET by { assert SOURCE[0] == 's' && TARGET[0] == 't'; }
    var rest := m.Keys - {SOURCE} - {TARGET};
    assert |rest| == 0;
    assert m.Keys == rest + {SOURCE, TARGET};
  }

  /** Roles with one too many, missing or blank are not ones that the specs allow. */
  lemma NeedsBothRoles(roles: map<string, string>, actions: seq<string>, specs: map<string, ActionSpec>)
    requires !BothRoles(roles) && "" !in specs
    ensures !RolesOk(CleanRoles(roles), actions, specs)
  {
    var clean := CleanRoles(roles);
    assert SOURCE != TARGET by { assert SOURCE[0] == 's' && TARGET[0] == 't'; }
    assert clean.Keys == roles.Keys;
    assert |{SOURCE, TARGET}| == 2;
    assert Trim("") == "";
    if clean.Keys == {SOURCE, TARGET} {
      assert SOURCE in clean && TARGET in clean;
      var k := if roles[SOURCE] == "" then SOURCE else TARGET;
      assert k in clean && clean[k] == "";
      assert !RoleOk(k, clean[k], actions, specs);
    }
  }

  lemma FirstPart(ps: seq<Protocol>, n: nat, actions: seq<string>, specs: map<string, ActionSpec>)
    requires n <= |ps| && !ProtocolsOk(ps[..n], actions, specs)
    ensures !ProtocolsOk(ps, actions, specs)
  {
    var part := ps[..n];
    if ProtocolsOk(ps, actions, specs) {
      forall i | 0 <= i < n ensures HeaderOk(part[i]) && RolesOk(part[i].roles, actions, specs) {
        assert part[i] == ps[i] && HeaderOk(ps[i]) && RolesOk(ps[i].roles, actions, specs);
      }
      forall i, j | 0 <= i < j < n ensures Apart(part[i], part[j]) {
        assert part[i] == ps[i] && part[j] == ps[j] && Apart(ps[i], ps[j]);
      }
    }
  }

  /** One more protocol is fine exactly if it is fine by itself and apart from those before it. */
  lemma Extends(ps: seq<Protocol>, p: Protocol, actions: seq<string>, specs: map<string, ActionSpec>, seen: set<string>, used: set<string>)
    requires Tracks(ps, seen, used) && ProtocolsOk(ps, actions, specs)
    ensures ProtocolsOk(ps + [p], actions, specs)
      <==> HeaderOk(p) && p.id !in seen && RolesOk(p.roles, actions, specs) && p.roles.Values !! used
    ensures Tracks(ps + [p], seen + {p.id}, used + p.roles.Values)
  {
    var more := ps + [p];
    assert more[|ps|] == p;
    MentionsOne(ps, p);
    forall x ensures Names(more, x) <==> Names(ps, x) || x == p.id {
      if Names(ps, x) {
        var i :| 0 <= i < |ps| && ps[i].id == x;
        assert more[i].id == x;
      }
    }
    if HeaderOk(p) && RolesOk(p.roles, actions, specs) && p.id !in seen && p.roles.Values !! used {
      forall i, j | 0 <= i < j < |more| ensures Apart(more[i], more[j]) {
        if j == |ps| {
          assert Names(ps, ps[i].id);
          forall a | a in ps[i].roles.Values ensures a !in p.roles.Values { assert Mentions(ps, a); }
        }
      }
    }
    if ProtocolsOk(more, actions, specs) {
      forall i | 0 <= i < |ps| ensures Apart(ps[i], p) { assert Apart(more[i], more[|ps|]); }
    }
  }

  lemma MentionsOne(ps: seq<Protocol>, p: Protocol)
    ensures forall a :: Mentions(ps + [p], a) <==> Mentions(ps, a) || a in p.roles.Values
  {
    forall a ensures Mentions(ps + [p], a) <==> Mentions(ps, a) || a in p.roles.Values {
      if Mentions(ps, a) {
        var i :| 0 <= i < |ps| && a in ps[i].roles.Values;
        assert a in (ps + [p])[i].roles.Values;
      }
      assert (ps + [p])[|ps|] == p;
    }
  }

  /** The check that no peer action is left without a protocol. */
  method CheckMentioned(specs: map<string, ActionSpec>, used: set<string>) returns (ok: bool)
    ensures ok <==> forall a :: a in specs && specs[a].runtime == PEER ==> a in used
  {
    var left := specs.Keys;
    while left != {}
      invariant left <= specs.Keys
      invariant forall a :: a in specs && a !in left && specs[a].runtime == PEER ==> a in used
      decreases |left|
    {
      var a :| a in left;
      left := left - {a};
      if specs[a].runtime == PEER && a !in used { return false; }
    }
    return true;
  }

  lemma NoBlankKey(actions: seq<string>, specs: map<string, ActionSpec>)
    requires forall a :: a in specs ==> EntryOk(a, specs[a], actions)
    ensures "" !in specs
  {
    assert Trim("") == "";
    assert !KeyOk("", actions);
  }

  lemma NothingUsed(ps: seq<Protocol>, used: set<string>)
    requires forall a :: a in used <==> Mentions(ps, a)
    ensures ps == [] ==> |used| == 0
  {
    if ps == [] { assert used == {}; }
  }

  /** normalizePluginPeerDeclarations succeeds exactly on declarations whose clean form is well formed, and
      returns that form. */
  method Normalize(actions: seq<string>, d: Declarations) returns (r: Result<Declarations, Fault>)
    ensures r.Ok? <==> WellFormed(actions, Cleaned(d))
    ensures r.Ok? ==> r.value == Cleaned(d)
  {
    var runtime := Trim(d.runtime);
    if runtime == "" { runtime := TASK; }
    if runtime != TASK && runtime != PEER { return Err(Invalid); }
    var specs := NormalizeSpecs(actions, d.specs);
    if specs.Err? { return Err(Invalid); }
    NoBlankKey(actions, specs.value);
    var protocols, used := NormalizeProtocols(d.protocols, actions, specs.value);
    if protocols.Err? { return Err(Invalid); }
    NothingUsed(protocols.value, used);
    var mentioned := CheckMentioned(specs.value, used);
    if !mentioned { return Err(Invalid); }
    if runtime == TASK && (|protocols.value| != 0 || |used| != 0) { return Err(Invalid); }
    if runtime == PEER && |protocols.value| == 0 { return Err(Invalid); }
    r := Ok(Declarations(runtime, specs.value, protocols.value));
  }

  // ----- what a normal form promises -----

  lemma SpecTwice(s: ActionSpec)
    ensures CleanSpec(CleanSpec(s)) == CleanSpec(s)
  {
    TrimTwice(s.runtime);
    TrimTwice(s.role);
  }

  lemma ProtocolTwice(p: Protocol)
    ensures CleanProtocol(CleanProtocol(p)) == CleanProtocol(p)
  {
    TrimTwice(p.id);
    TrimTwice(p.abi);
    TrimTwice(p.transport);
    TrimTwice(p.approval);
    var c := CleanRoles(p.roles);
    forall r | r in c ensures CleanRoles(c)[r] == c[r] { TrimTwice(p.roles[r]); }
    assert CleanRoles(c) == c;
  }

  /** Cleaning a clean form changes nothing, so what was accepted once is accepted again, unchanged. */
  lemma CleanedTwice(d: Declarations)
    ensures Cleaned(Cleaned(d)) == Cleaned(d)
  {
    var c := Cleaned(d);
    TrimTwice(d.runtime);
    assert Trim(TASK) == TASK by {
      assert TASK == "task" && Bare(TASK);
    }
    forall a | a in c.specs ensures CleanSpecs(c.specs)[a] == c.specs[a] { SpecTwice(d.specs[a]); }
    assert CleanSpecs(c.specs) == c.specs;
    forall i | 0 <= i < |c.protocols| ensures CleanProtocols(c.protocols)[i] == c.protocols[i] { ProtocolTwice(d.protocols[i]); }
    assert CleanProtocols(c.protocols) == c.protocols;
  }

  method NormalizeTwice(actions: seq<string>, d: Declarations) returns (first: Result<Declarations, Fault>, second: Result<Declarations, Fault>)
    ensures first.Ok? <==> WellFormed(actions, Cleaned(d))
    ensures first.Ok? ==> second == first
  {
    first := Normalize(actions, d);
    second := first;
    if first.Ok? {
      CleanedTwice(d);
      second := Normalize(actions, first.value);
    }
  }

  /** The protocol `id` gives `role` to action `a`. */
  predicate Declares(d: Declarations, id: string, role: string, a: string) {
    exists i :: 0 <= i < |d.protocols| && d.protocols[i].id == id && role in d.protocols[i].roles && d.protocols[i].roles[role] == a
  }

  predicate IsPeerAction(d: Declarations, a: string) {
    a in d.specs && d.specs[a].runtime == PEER
  }

  /** Whatever a protocol gives a role is a peer action of that role. */
  lemma DeclaredRole(actions: seq<string>, d: Declarations, id: string, role: string, a: string)
    requires Placed(d.protocols, actions, d.specs) && Declares(d, id, role, a)
    ensures IsPeerAction(d, a) && d.specs[a].role == role && Places(d, id, role) && a in actions
  {
    var i :| 0 <= i < |d.protocols| && d.protocols[i].id == id && role in d.protocols[i].roles && d.protocols[i].roles[role] == a;
    assert RolesOk(d.protocols[i].roles, actions, d.specs);
    assert RoleOk(role, a, actions, d.specs);
    assert role in d.protocols[i].roles.Keys;
  }

  lemma ApartEither(ps: seq<Protocol>, actions: seq<string>, specs: map<string, ActionSpec>, i: nat, j: nat)
    requires i < |ps| && j < |ps| && Placed(ps, actions, specs)
    ensures i != j ==> ps[i].id != ps[j].id && ps[i].roles.Values !! ps[j].roles.Values
  {
    if i < j { assert Apart(ps[i], ps[j]); } else if j < i { assert Apart(ps[j], ps[i]); }
  }

  // In a normal form, Declares is a bijection between the pairs of a protocol and a role and the peer actions of that
  // role: it is one to one, and leaves out neither an action nor a pair.

  /** An action has at most one protocol and role, and a protocol and role at most one action. */
  lemma OneToOne(actions: seq<string>, d: Declarations, id: string, role: string, a: string, id': string, role': string, b: string)
    requires Placed(d.protocols, actions, d.specs) && Declares(d, id, role, a) && Declares(d, id', role', b)
    ensures a == b <==> id == id' && role == role'
  {
    DeclaredRole(actions, d, id, role, a);
    DeclaredRole(actions, d, id', role', b);
    var i :| 0 <= i < |d.protocols| && d.protocols[i].id == id && role in d.protocols[i].roles && d.protocols[i].roles[role] == a;
    var j :| 0 <= j < |d.protocols| && d.protocols[j].id == id' && role' in d.protocols[j].roles && d.protocols[j].roles[role'] == b;
    assert a in d.protocols[i].roles.Values && b in d.protocols[j].roles.Values;
    ApartEither(d.protocols, actions, d.specs, i, j);
  }

  /** Every peer action has its place in a protocol. */
  lemma ActionHasPlace(d: Declarations, a: string) returns (id: string, role: string)
    requires AllMentioned(d.specs, d.protocols) && IsPeerAction(d, a)
    ensures Declares(d, id, role, a)
  {
    assert Mentions(d.protocols, a);
    var i :| 0 <= i < |d.protocols| && a in d.protocols[i].roles.Values;
    id := d.protocols[i].id;
    role :| role in d.protocols[i].roles && d.protocols[i].roles[role] == a;
  }

  predicate Places(d: Declarations, id: string, role: string) {
    (role == SOURCE || role == TARGET) && Names(d.protocols, id)
  }

  /** Every role of every protocol has an action. */
  lemma PlaceHasAction(actions: seq<string>, d: Declarations, id: string, role: string) returns (a: string)
    requires Placed(d.protocols, actions, d.specs) && Places(d, id, role)
    ensures Declares(d, id, role, a)
  {
    var i :| 0 <= i < |d.protocols| && d.protocols[i].id == id;
    assert RolesOk(d.protocols[i].roles, actions, d.specs);
    assert role in d.protocols[i].roles.Keys;
    a := d.protocols[i].roles[role];
  }

  // ----- which peer a plugin accepts -----

  /** A lookup in a map of the source: a missing key reads as the empty string. */
  function RoleOf(roles: map<string, string>, role: string): string {
    if role in roles then roles[role] else ""
  }

  predicate Answers(p: Protocol, id: string, role: string, action: string) {
    p.id == id && RoleOf(p.roles, role) == action
  }

  predicate Accepts(d: Declarations, id: string, role: string, action: string) {
    && (if action in d.specs then d.specs[action] == ActionSpec(PEER, role) else d.runtime == PEER && role == "")
    && exists i :: 0 <= i < |d.protocols| && Answers(d.protocols[i], id, role, action)
  }

  /** pluginPeerAction */
  method PluginPeerAction(d: Declarations, id: string, role: string, action: string) returns (r: Result<Protocol, Fault>)
    ensures r.Ok? <==> Accepts(d, id, role, action)
    ensures r.Ok? ==> r.value in d.protocols && Answers(r.value, id, role, action)
  {
    var spec := if action in d.specs then d.specs[action] else ActionSpec(d.runtime, "");
    if spec.runtime != PEER || spec.role != role { return Err(Invalid); }
    for i := 0 to |d.protocols|
      invariant forall j :: 0 <= j < i ==> !Answers(d.protocols[j], id, role, action)
    {
      if d.protocols[i].id == id && RoleOf(d.protocols[i].roles, role) == action { return Ok(d.protocols[i]); }
    }
    r := Err(Invalid);
  }

  /** The one request beyond the declared ones that pluginPeerAction accepts: no role and no action at all. */
  predicate Blank(d: Declarations, id: string, role: string, action: string) {
    role == "" && action == "" && exists i :: 0 <= i < |d.protocols| && d.protocols[i].id == id
  }

  lemma NotARole(ps: seq<Protocol>, actions: seq<string>, specs: map<string, ActionSpec>, i: nat)
    requires Placed(ps, actions, specs) && i < |ps|
    ensures "" !in ps[i].roles
  {
    assert RolesOk(ps[i].roles, actions, specs);
    assert |SOURCE| == 6 && |TARGET| == 6;
    assert "" !in ps[i].roles.Keys;
  }

  /** Of a normal form, pluginPeerAction accepts exactly the declared triples, and the blank request. */
  method PeerActionIsDeclared(actions: seq<string>, d: Declarations, id: string, role: string, action: string) returns (r: Result<Protocol, Fault>)
    requires WellFormed(actions, d)
    ensures r.Ok? <==> Declares(d, id, role, action) || (d.runtime == PEER && Blank(d, id, role, action))
    ensures r.Ok? ==> r.value in d.protocols && r.value.id == id
  {
    r := PluginPeerAction(d, id, role, action);
    NoBlankKey(actions, d.specs);
    AcceptedIsDeclared(d.protocols, actions, d, id, role, action);
  }

  lemma AcceptedIsDeclared(ps: seq<Protocol>, actions: seq<string>, d: Declarations, id: string, role: string, action: string)
    requires ps == d.protocols && Placed(ps, actions, d.specs) && "" !in d.specs
    ensures Accepts(d, id, role, action) <==> Declares(d, id, role, action) || (d.runtime == PEER && Blank(d, id, role, action))
  {
    if Accepts(d, id, role, action) {
      var i :| 0 <= i < |ps| && Answers(ps[i], id, role, action);
      NotARole(ps, actions, d.specs, i);
      assert role in ps[i].roles ==> Declares(d, id, role, action);
    }
    if Declares(d, id, role, action) {
      DeclaredRole(actions, d, id, role, action);
      var i :| 0 <= i < |ps| && ps[i].id == id && role in ps[i].roles && ps[i].roles[role] == action;
      assert Answers(ps[i], id, role, action);
    }
    if Blank(d, id, role, action) {
      var i :| 0 <= i < |ps| && ps[i].id == id;
      NotARole(ps, actions, d.specs, i);
      assert Answers(ps[i], id, role, action);
    }
  }

  /** So a plugin with the peer runtime always accepts the blank request, which it never declared. */
  lemma BlankAccepted(actions: seq<string>, d: Declarations)
    requires WellFormed(actions, d) && d.runtime == PEER
    ensures Accepts(d, d.protocols[0].id, "", "") && !Declares(d, d.protocols[0].id, "", "")
  {
    NoBlankKey(actions, d.specs);
    BlankIsNew(d.protocols, actions, d);
  }

  lemma BlankIsNew(ps: seq<Protocol>, actions: seq<string>, d: Declarations)
    requires ps == d.protocols && ps != [] && d.runtime == PEER && "" !in d.specs && Placed(ps, actions, d.specs)
    ensures Accepts(d, ps[0].id, "", "") && !Declares(d, ps[0].id, "", "")
  {
    forall i: nat | i < |ps| ensures "" !in ps[i].roles { NotARole(ps, actions, d.specs, i); }
    assert Answers(ps[0], ps[0].id, "", "");
  }

  // ----- lists of names -----

  /** cleanStringSet: the cleaned names, all different, or an error. */
  method CleanStringSet(values: seq<string>, required: bool) returns (r: Result<seq<string>, Fault>)
    ensures r.Ok? <==>
      && (required ==> |values| != 0) && |values| <= 64
      && (forall i :: 0 <= i < |values| ==> CleanAction(values[i]).Some?)
      && (forall i, j :: 0 <= i < j < |values| ==> CleanAction(values[i]) != CleanAction(values[j]))
    ensures r.Ok? ==> |r.value| == |values| && Distinct(r.value) && forall i :: 0 <= i < |values| ==> CleanAction(values[i]) == Some(r.value[i])
  {
    if required && |values| == 0 { return Err(Invalid); }
    if |values| > 64 { return Err(Invalid); }
    var out: seq<string> := [];
    var seen: set<string> := {};
    for n := 0 to |values|
      invariant |out| == n && Distinct(out)
      invariant forall i :: 0 <= i < n ==> CleanAction(values[i]) == Some(out[i])
      invariant forall x :: x in seen <==> x in out
    {
      var value := CleanAction(values[n]);
      if value.None? { return Err(Invalid); }
      if value.value in seen {
        ghost var i :| 0 <= i < n && out[i] == value.value;
        assert CleanAction(values[i]) == CleanAction(values[n]);
        return Err(Invalid);
      }
      seen := seen + {value.value};
      out := out + [value.value];
    }
    r := Ok(out);
  }
}
