/** The permission model and the firewall evaluator of the remote-request
    layer: which capabilities a remote peer holds on the vaults and the
    store of each local client, and the allow/deny decision for a request
    that needs a list of such capabilities. */
module AccessControl {
  import opened Common

  /** A capability a request needs. Use, Write, Clone and List are scoped to
      one vault of the client; ReadStore and WriteStore to its whole store. */
  datatype Access =
    | Write(vaultPath: Bytes)
    | Clone(vaultPath: Bytes)
    | Use(vaultPath: Bytes)
    | List(vaultPath: Bytes)
    | ReadStore
    | WriteStore

  /** `exceptions.get(key).copied().unwrap_or(default)`: an exception entry
      wins over the default. */
  function Lookup(exceptions: map<Bytes, bool>, key: Bytes, default: bool): (b: bool)
    ensures key in exceptions ==> b == exceptions[key]
    ensures b != default ==> key in exceptions && exceptions[key] == b
  {
    if key in exceptions then exceptions[key] else default
  }

  /** What one client allows remote peers to do: for each of Use, Write and
      Clone a default and per-vault-path exceptions, and two flat store flags. */
  datatype ClientPermissions = ClientPermissions(
    useVaultDefault: bool,
    useVaultExceptions: map<Bytes, bool>,
    writeVaultDefault: bool,
    writeVaultExceptions: map<Bytes, bool>,
    cloneVaultDefault: bool,
    cloneVaultExceptions: map<Bytes, bool>,
    readStore: bool,
    writeStore: bool)
  {
    /** No access to any vault or to the store (`ClientPermissions::none`,
        the derived `Default`). */
    static function None(): (r: ClientPermissions)
      ensures forall a :: !Resolve(r, a)
      ensures r.useVaultExceptions == r.writeVaultExceptions == r.cloneVaultExceptions == map[]
    {
      ClientPermissions(false, map[], false, map[], false, map[], false, false)
    }

    /** Every capability on every vault and on the store (`ClientPermissions::all`). */
    static function All(): (r: ClientPermissions)
      ensures forall a :: Resolve(r, a)
      ensures r.useVaultExceptions == r.writeVaultExceptions == r.cloneVaultExceptions == map[]
    {
      ClientPermissions(true, map[], true, map[], true, map[], true, true)
    }

    /** Sets the three vault defaults; the exceptions still take precedence. */
    function WithDefaultVaultAccess(use_: bool, write: bool, clone_: bool): (r: ClientPermissions)
      ensures r.(useVaultDefault := useVaultDefault, writeVaultDefault := writeVaultDefault,
                 cloneVaultDefault := cloneVaultDefault) == this
      ensures forall vp :: vp !in useVaultExceptions ==> UseAllowed(r, vp) == use_
      ensures forall vp :: vp !in writeVaultExceptions ==> WriteAllowed(r, vp) == write
      ensures forall vp :: vp !in cloneVaultExceptions ==> CloneAllowed(r, vp) == clone_
      ensures forall vp :: vp in useVaultExceptions ==> UseAllowed(r, vp) == UseAllowed(this, vp)
      ensures forall vp :: vp in writeVaultExceptions ==> WriteAllowed(r, vp) == WriteAllowed(this, vp)
      ensures forall vp :: vp in cloneVaultExceptions ==> CloneAllowed(r, vp) == CloneAllowed(this, vp)
    {
      this.(useVaultDefault := use_, writeVaultDefault := write, cloneVaultDefault := clone_)
    }

    /** `with_vault_access` AS WRITTEN: all three inserts go into the Use
        exception map, so the last one (the clone flag) is what remains, and
        the Write and Clone exception maps are never touched. */
    function WithVaultAccess(vaultPath: Bytes, use_: bool, write: bool, clone_: bool): (r: ClientPermissions)
      ensures r.(useVaultExceptions := useVaultExceptions) == this
      ensures Inserted(useVaultExceptions, r.useVaultExceptions, vaultPath, clone_)
      ensures forall vp :: vp != vaultPath ==> UseAllowed(r, vp) == UseAllowed(this, vp)
    {
      var afterUse := useVaultExceptions[vaultPath := use_];
      var afterWrite := afterUse[vaultPath := write];
      this.(useVaultExceptions := afterWrite[vaultPath := clone_])
    }

    /** `with_vault_access` as its documentation intends it: one exception per
        capability for `vaultPath`, every other vault path unaffected. */
    function WithVaultAccessIntended(vaultPath: Bytes, use_: bool, write: bool, clone_: bool): (r: ClientPermissions)
      ensures Inserted(useVaultExceptions, r.useVaultExceptions, vaultPath, use_)
      ensures Inserted(writeVaultExceptions, r.writeVaultExceptions, vaultPath, write)
      ensures Inserted(cloneVaultExceptions, r.cloneVaultExceptions, vaultPath, clone_)
      ensures UseAllowed(r, vaultPath) == use_
      ensures WriteAllowed(r, vaultPath) == write
      ensures CloneAllowed(r, vaultPath) == clone_
      ensures forall vp :: vp != vaultPath ==> UseAllowed(r, vp) == UseAllowed(this, vp)
      ensures forall vp :: vp != vaultPath ==> WriteAllowed(r, vp) == WriteAllowed(this, vp)
      ensures forall vp :: vp != vaultPath ==> CloneAllowed(r, vp) == CloneAllowed(this, vp)
      ensures r.(useVaultExceptions := useVaultExceptions, writeVaultExceptions := writeVaultExceptions,
                 cloneVaultExceptions := cloneVaultExceptions) == this
    {
      this.(useVaultExceptions := useVaultExceptions[vaultPath := use_],
            writeVaultExceptions := writeVaultExceptions[vaultPath := write],
            cloneVaultExceptions := cloneVaultExceptions[vaultPath := clone_])
    }

    /** Sets the two store flags; every vault capability is unaffected. */
    function WithStoreAccess(read: bool, write: bool): (r: ClientPermissions)
      ensures Resolve(r, ReadStore) == read && Resolve(r, WriteStore) == write
      ensures forall a: Access :: !a.ReadStore? && !a.WriteStore? ==> Resolve(r, a) == Resolve(this, a)
      ensures r.(readStore := readStore, writeStore := writeStore) == this
    {
      this.(readStore := read, writeStore := write)
    }
  }

  /** Use, Write and Clone at one vault path: exception first, then default. */
  function UseAllowed(p: ClientPermissions, vaultPath: Bytes): bool {
    Lookup(p.useVaultExceptions, vaultPath, p.useVaultDefault)
  }

  function WriteAllowed(p: ClientPermissions, vaultPath: Bytes): bool {
    Lookup(p.writeVaultExceptions, vaultPath, p.writeVaultDefault)
  }

  function CloneAllowed(p: ClientPermissions, vaultPath: Bytes): bool {
    Lookup(p.cloneVaultExceptions, vaultPath, p.cloneVaultDefault)
  }

  /** Whether `p` grants one capability: the closure inside
      `check_with_permissions`. List is implied by any finer vault capability. */
  predicate Resolve(p: ClientPermissions, access: Access)
    ensures access.List? ==>
      (Resolve(p, access) <==> Resolve(p, Use(access.vaultPath)) || Resolve(p, Write(access.vaultPath)) ||
                               Resolve(p, Clone(access.vaultPath)))
    ensures access.ReadStore? ==> (Resolve(p, access) <==> p.readStore)
    ensures access.WriteStore? ==> (Resolve(p, access) <==> p.writeStore)
    decreases if access.List? then 1 else 0
  {
    match access
    case Use(vp) => UseAllowed(p, vp)
    case Write(vp) => WriteAllowed(p, vp)
    case Clone(vp) => CloneAllowed(p, vp)
    case List(vp) => UseAllowed(p, vp) || WriteAllowed(p, vp) || CloneAllowed(p, vp)
    case ReadStore => p.readStore
    case WriteStore => p.writeStore
  }

  /** Reference meaning of a capability list: every entry is granted. */
  predicate Granted(p: ClientPermissions, locations: seq<Access>) {
    forall i :: 0 <= i < |locations| ==> Resolve(p, locations[i])
  }

  /** The permissions of a remote peer towards the clients of this node: an
      optional default for every client, and per-client-path exceptions. An
      exception entry of `None` denies that client outright; a client path
      without an entry falls back to the default. */
  datatype Permissions = Permissions(
    default: Option<ClientPermissions>,
    exceptions: map<Bytes, Option<ClientPermissions>>)
  {
    /** No operation is permitted (`Permissions::allow_none`, the derived `Default`). */
    static function AllowNone(): (r: Permissions)
      ensures r.exceptions == map[]
      ensures forall rq :: !Check(rq, r)
    {
      Permissions(None, map[])
    }

    /** Every operation on every client is permitted (`Permissions::allow_all`). */
    static function AllowAll(): (r: Permissions)
      ensures r.exceptions == map[]
      ensures forall rq :: Check(rq, r)
    {
      Permissions(Some(ClientPermissions.All()), map[])
    }

    /** Replaces the default for clients without an exception entry. */
    function WithDefaultPermissions(permissions: Option<ClientPermissions>): (r: Permissions)
      ensures r.exceptions == exceptions
      ensures forall rq: AccessRequest :: rq.clientPath !in exceptions ==>
        (Check(rq, r) <==> permissions.Some? && CheckWithPermissions(rq, permissions.value))
      ensures forall rq: AccessRequest :: rq.clientPath in exceptions ==> Check(rq, r) == Check(rq, this)
    {
      this.(default := permissions)
    }

    /** Sets (or replaces) the exception entry of one client path. */
    function WithClientPermissions(clientPath: Bytes, permissions: Option<ClientPermissions>): (r: Permissions)
      ensures r.default == default
      ensures Inserted(exceptions, r.exceptions, clientPath, permissions)
      ensures forall rq: AccessRequest :: rq.clientPath == clientPath ==>
        (Check(rq, r) <==> permissions.Some? && CheckWithPermissions(rq, permissions.value))
      ensures forall rq: AccessRequest :: rq.clientPath != clientPath ==> Check(rq, r) == Check(rq, this)
    {
      this.(exceptions := exceptions[clientPath := permissions])
    }
  }

  /** The capabilities one inbound request needs, tagged with the client it addresses. */
  datatype AccessRequest = AccessRequest(clientPath: Bytes, locations: seq<Access>)

  /** `exceptions.get(client_path).unwrap_or(&default)`. */
  function ResolveClient(permissions: Permissions, clientPath: Bytes): (r: Option<ClientPermissions>)
    ensures clientPath in permissions.exceptions ==> r == permissions.exceptions[clientPath]
    ensures r != permissions.default ==>
      clientPath in permissions.exceptions && permissions.exceptions[clientPath] == r
  {
    if clientPath in permissions.exceptions then permissions.exceptions[clientPath]
    else permissions.default
  }

  /** `check_with_permissions`: `locations.iter().all(..)`, short-circuiting
      at the first capability that is not granted. */
  function CheckWithPermissions(rq: AccessRequest, p: ClientPermissions): (allowed: bool)
    ensures allowed <==> Granted(p, rq.locations)
    decreases |rq.locations|
  {
    if rq.locations == [] then true
    else Resolve(p, rq.locations[0]) && CheckWithPermissions(rq.(locations := rq.locations[1..]), p)
  }

  /** `AccessRequest::check`, the firewall rule installed for a peer: the
      client is resolved first; an unresolved client is denied whatever it
      asks, a resolved one is allowed exactly when every capability is granted. */
  function Check(rq: AccessRequest, permissions: Permissions): (allowed: bool)
    ensures allowed <==>
      ResolveClient(permissions, rq.clientPath).Some? &&
      Granted(ResolveClient(permissions, rq.clientPath).value, rq.locations)
  {
    match ResolveClient(permissions, rq.clientPath)
    case Some(p) => CheckWithPermissions(rq, p)
    case None => false
  }

  // ---------------------------------------------------------------------------
  // Properties of the evaluator

  /** Client resolution: an entry `Some(p)` decides by `p`, an entry `None`
      denies, and a path with no entry falls back to the default. */
  lemma ClientEntryOverridesDefault(rq: AccessRequest, permissions: Permissions)
    ensures rq.clientPath in permissions.exceptions && permissions.exceptions[rq.clientPath].Some? ==>
      Check(rq, permissions) == CheckWithPermissions(rq, permissions.exceptions[rq.clientPath].value)
    ensures rq.clientPath in permissions.exceptions && permissions.exceptions[rq.clientPath].None? ==>
      !Check(rq, permissions)
    ensures rq.clientPath !in permissions.exceptions ==>
      Check(rq, permissions) == (permissions.default.Some? && CheckWithPermissions(rq, permissions.default.value))
  {
  }

  /** A client path mapped to `None` is denied even under `allow_all()`. */
  lemma DeniedClientUnderAllowAll(clientPath: Bytes, locations: seq<Access>)
    ensures !Check(AccessRequest(clientPath, locations),
                   Permissions.AllowAll().WithClientPermissions(clientPath, None))
  {
  }

  /** An exception entry outlives any later change of the default: whatever
      `with_default_permissions` sets afterwards, the client given its own
      entry (including a denying `None`) is still decided by that entry. */
  lemma ClientEntrySurvivesNewDefault(permissions: Permissions, clientPath: Bytes, entry: Option<ClientPermissions>,
                                      d: Option<ClientPermissions>, locations: seq<Access>)
    ensures var rq := AccessRequest(clientPath, locations);
      Check(rq, permissions.WithClientPermissions(clientPath, entry).WithDefaultPermissions(d)) <==>
        entry.Some? && CheckWithPermissions(rq, entry.value)
  {
  }

  /** A `None` entry is not the same as no entry: a client denied through its
      own entry stays denied after the default becomes `all()`. */
  lemma DeniedEntryOutlivesAllowAllDefault(clientPath: Bytes, locations: seq<Access>)
    ensures !Check(AccessRequest(clientPath, locations),
                   Permissions.AllowNone().WithClientPermissions(clientPath, None)
                     .WithDefaultPermissions(Some(ClientPermissions.All())))
  {
  }

  /** The corrected builder's exceptions outlive a later change of the vault
      defaults: each capability at the path keeps the flag it was given. */
  lemma IntendedExceptionsSurviveNewDefaults(p: ClientPermissions, vaultPath: Bytes, use_: bool, write: bool, clone_: bool,
                                             u: bool, w: bool, c: bool)
    ensures var r := p.WithVaultAccessIntended(vaultPath, use_, write, clone_).WithDefaultVaultAccess(u, w, c);
      UseAllowed(r, vaultPath) == use_ && WriteAllowed(r, vaultPath) == write && CloneAllowed(r, vaultPath) == clone_
  {
  }

  /** `none()` carries no exceptions, so new vault defaults set on it decide
      every vault path alike. */
  lemma NoneWithDefaultsIsUniform(vaultPath: Bytes, u: bool, w: bool, c: bool)
    ensures var r := ClientPermissions.None().WithDefaultVaultAccess(u, w, c);
      UseAllowed(r, vaultPath) == u && WriteAllowed(r, vaultPath) == w && CloneAllowed(r, vaultPath) == c
  {
  }

  /** The evaluator is conjunctive: capabilities can be split into two
      requests and the decision is the conjunction of the two decisions. */
  lemma {:induction false} CheckSplits(clientPath: Bytes, first: seq<Access>, second: seq<Access>, permissions: Permissions)
    ensures Check(AccessRequest(clientPath, first + second), permissions) ==
      (Check(AccessRequest(clientPath, first), permissions) && Check(AccessRequest(clientPath, second), permissions))
  {
    match ResolveClient(permissions, clientPath)
    case None =>
    case Some(p) => GrantedAppend(p, first, second);
  }

  /** A single capability is granted as a list iff it resolves to true. */
  lemma GrantedSingle(p: ClientPermissions, access: Access)
    ensures Granted(p, [access]) <==> Resolve(p, access)
  {
    assert [access][0] == access;
  }

  /** `Granted` distributes over concatenation of capability lists. */
  lemma GrantedAppend(p: ClientPermissions, first: seq<Access>, second: seq<Access>)
    ensures Granted(p, first + second) == (Granted(p, first) && Granted(p, second))
  {
    var both := first + second;
    assert forall i :: 0 <= i < |first| ==> both[i] == first[i];
    assert forall i :: 0 <= i < |second| ==> both[|first| + i] == second[i];
    if Granted(p, first) && Granted(p, second) {
      forall i | 0 <= i < |both| ensures Resolve(p, both[i]) {
        if i >= |first| { assert both[i] == second[i - |first|]; }
      }
    }
  }

  /** One capability that is not granted denies the whole request; a
      request needing no capability is allowed once the client resolves. */
  lemma DeniedCapabilityDenies(rq: AccessRequest, permissions: Permissions, i: nat)
    requires i < |rq.locations|
    requires ResolveClient(permissions, rq.clientPath).Some?
    requires !Resolve(ResolveClient(permissions, rq.clientPath).value, rq.locations[i])
    ensures !Check(rq, permissions)
    ensures Check(rq.(locations := []), permissions)
  {
  }

  /** List access at a vault path is the disjunction of Use, Write and Clone there. */
  lemma ListIsAnyVaultRight(p: ClientPermissions, vaultPath: Bytes)
    ensures Resolve(p, List(vaultPath)) <==>
      Resolve(p, Use(vaultPath)) || Resolve(p, Write(vaultPath)) || Resolve(p, Clone(vaultPath))
  {
  }

  /** Per-capability resolution: a vault capability reads its own exception
      map at the vault path and falls back to that capability's default; the
      store capabilities read the flat flags. */
  lemma VaultCapabilityResolution(p: ClientPermissions, vaultPath: Bytes)
    ensures Resolve(p, Use(vaultPath)) ==
      if vaultPath in p.useVaultExceptions then p.useVaultExceptions[vaultPath] else p.useVaultDefault
    ensures Resolve(p, Write(vaultPath)) ==
      if vaultPath in p.writeVaultExceptions then p.writeVaultExceptions[vaultPath] else p.writeVaultDefault
    ensures Resolve(p, Clone(vaultPath)) ==
      if vaultPath in p.cloneVaultExceptions then p.cloneVaultExceptions[vaultPath] else p.cloneVaultDefault
    ensures Resolve(p, ReadStore) == p.readStore && Resolve(p, WriteStore) == p.writeStore
  {
  }

  /** `with_vault_access` as written: the Use decision at the vault path is
      the clone flag, and the Write and Clone decisions there do not change. */
  lemma WithVaultAccessAsWritten(p: ClientPermissions, vaultPath: Bytes, use_: bool, write: bool, clone_: bool)
    ensures Resolve(p.WithVaultAccess(vaultPath, use_, write, clone_), Use(vaultPath)) == clone_
    ensures Resolve(p.WithVaultAccess(vaultPath, use_, write, clone_), Write(vaultPath)) == Resolve(p, Write(vaultPath))
    ensures Resolve(p.WithVaultAccess(vaultPath, use_, write, clone_), Clone(vaultPath)) == Resolve(p, Clone(vaultPath))
  {
  }

  /** Concrete input on which `with_vault_access` as written departs from
      its intent: granting Use and Write but not Clone on vault [1] of a
      `none()` client leaves both Use and Write denied there. */
  lemma WithVaultAccessCounterexample()
    ensures var asked := ClientPermissions.None().WithVaultAccess([1], true, true, false);
      !Resolve(asked, Use([1])) && !Resolve(asked, Write([1]))
    ensures var intended := ClientPermissions.None().WithVaultAccessIntended([1], true, true, false);
      Resolve(intended, Use([1])) && Resolve(intended, Write([1])) && !Resolve(intended, Clone([1]))
  {
  }

  /** An exception overrides a default: with Use denied by default and
      granted for vault "v1", Use and List on "v1" are allowed and on "v2"
      denied. The exception is made with the builder as written, which
      stores its last flag in the Use map, so Use is passed in that place. */
  lemma ExceptionOverridesVaultDefault(clientPath: Bytes)
    ensures var v1: Bytes := [0x76, 0x31];
      var v2: Bytes := [0x76, 0x32];
      var p := ClientPermissions.None().WithVaultAccess(v1, false, false, true);
      var perms := Permissions.AllowNone().WithDefaultPermissions(Some(p));
      Check(AccessRequest(clientPath, [Use(v1)]), perms) &&
      Check(AccessRequest(clientPath, [List(v1)]), perms) &&
      !Check(AccessRequest(clientPath, [Use(v2)]), perms) &&
      !Check(AccessRequest(clientPath, [List(v2)]), perms)
  {
  }
}
