# Remote-request access control of a secret-vault node

This project models, in Dafny, the access-control core of the layer through
which remote peers send requests to the clients of a Stronghold node
(`client/src/state/p2p.rs`):

- **Permission model** (`access_control.dfy`, module `AccessControl`).
  `ClientPermissions` holds, for each of Use, Write and Clone, a default
  and a map of per-vault-path exceptions. It also holds two flat store
  flags. `Permissions` holds an optional default `ClientPermissions` and
  per-client-path exceptions that map to an optional `ClientPermissions`.
  The builders of both are functions over these values, because the Rust
  builders take an owned `self` and return it.
- **Firewall evaluator** (same module). `Check` resolves the client: an
  exception entry wins over the default, and an entry of `None` denies.
  `CheckWithPermissions` then requires every needed capability to resolve
  to true, looking up the exception first and then the default. List is
  the disjunction of Use, Write and Clone at the same vault path.
- **Request classifier** (`requests.dfy`, module `Requests`). `Classify`
  maps every request variant to the capabilities it needs. `FromRequest`
  and `CollectProcedureAccess` do the same step by step, as `from_request` does.
  The module also holds the field-for-field conversion between
  `WriteToRemoteVault` and `WriteToVault`.
- **Result envelope** (`result_envelope.dfy`, module `ResultEnvelope`).
  `ShResult` carries every native result type, with a `From`/`TryFrom`
  pair per type. A `TryFrom` on the wrong variant yields `Err(())`.
- **Network configuration** (`network_config.dfy`, module `Config`).
  `NetworkConfig::new` and its setters, each of which sets one field.

`common.dfy` (module `Common`) holds byte strings, `Option`, `Result`,
`Location`, and opaque types for what other crates define.

Where the model follows the code rather than the documentation:
- The doc comment of `NetworkConfig::new` says both timeouts are 10 s. The
  code takes `Default::default()`, which leaves them unset, and
  `Config.NetworkConfig.New` follows the code. Any 10 s default belongs to
  the transport, which is not part of this model.
- The result envelope is lossless for every type except the record-write
  result, whose `RecordError` crosses as its string rendering.

## Model

| member | source | states |
|---|---|---|
| `AccessControl.ClientPermissions.None` | client/src/state/p2p.rs:380-383 | `none()` is the derived `Default`: all three exception maps are empty and every `Access` resolves to false |
| `AccessControl.ClientPermissions.All` | client/src/state/p2p.rs:384-395 | `all()` grants every capability on every vault and the store, with empty exception maps |
| `AccessControl.ClientPermissions.WithDefaultVaultAccess` | client/src/state/p2p.rs:397-403 | only the three defaults change; a vault path without an exception now resolves to the new default; one with an exception resolves as before |
| `AccessControl.ClientPermissions.WithVaultAccess` | client/src/state/p2p.rs:405-411 | as written: only the Use exception map changes; it gains an entry at the vault path holding the clone flag, and every other key of it is unchanged |
| `AccessControl.ClientPermissions.WithVaultAccessIntended` | client/src/state/p2p.rs:405-411 | corrected: each of the Use, Write and Clone exception maps gains an entry at the vault path holding its own flag, with every other key unchanged; so the three capabilities there resolve to the three flags, every other path resolves as before, and every other field is unchanged |
| `AccessControl.ClientPermissions.WithStoreAccess` | client/src/state/p2p.rs:413-418 | ReadStore and WriteStore resolve to the given flags; every vault capability resolves as before; only the two flags change |
| `AccessControl.Permissions.AllowNone` | client/src/state/p2p.rs:328-331 | `allow_none()` has no exceptions and denies every access request, for every client path |
| `AccessControl.Permissions.AllowAll` | client/src/state/p2p.rs:333-340 | `allow_all()` has no exceptions and allows every access request |
| `AccessControl.Permissions.WithDefaultPermissions` | client/src/state/p2p.rs:342-346 | clients without an entry are now decided by the new default (denied if `None`); clients with an entry are decided as before |
| `AccessControl.Permissions.WithClientPermissions` | client/src/state/p2p.rs:348-352 | the client path becomes an entry of the exceptions holding the given value (even `None`), every other key is unchanged and the default is kept; so that client is decided by the entry (denied if `None`) and every other client as before |
| `AccessControl.Lookup` | client/src/state/p2p.rs:441-445 | `get(..).copied().unwrap_or(default)`: an exception entry always decides, and only an entry can give a value other than the default |
| `AccessControl.Resolve` | client/src/state/p2p.rs:440-476 | the per-capability closure: List is granted iff Use, Write or Clone is granted at the same path; ReadStore and WriteStore are the flat flags |
| `AccessControl.ResolveClient` | client/src/state/p2p.rs:429-433 | the client's entry, when present, decides (even if it is `None`); only an entry can make the result differ from the default |
| `AccessControl.GrantedAppend` | client/src/state/p2p.rs:439-440 | every capability of `a + b` is granted iff every capability of `a` and every capability of `b` is |
| `AccessControl.CheckWithPermissions` | client/src/state/p2p.rs:439-477 | the short-circuiting `all` over the locations is true iff every location is granted (the `Granted` reference predicate) |
| `AccessControl.Check` | client/src/state/p2p.rs:428-437 | a request is allowed iff its client resolves to some permissions and every capability it needs is granted by them |
| `AccessControl.ClientEntryOverridesDefault` | client/src/state/p2p.rs:428-436 | a `Some(p)` entry decides by `p`; a `None` entry denies; a path without an entry falls back to the default |
| `AccessControl.DeniedClientUnderAllowAll` | client/src/state/p2p.rs:349-352 | a client path mapped to `None` is denied even when the default is `allow_all()` |
| `AccessControl.ClientEntrySurvivesNewDefault` | client/src/state/p2p.rs:342-352 | after `with_client_permissions(c, e)`, any later `with_default_permissions(d)` leaves `c` decided by `e` alone |
| `AccessControl.DeniedEntryOutlivesAllowAllDefault` | client/src/state/p2p.rs:342-352 | `allow_none().with_client_permissions(c, None).with_default_permissions(Some(all()))` still denies `c`: a `None` entry is not the same as no entry |
| `AccessControl.IntendedExceptionsSurviveNewDefaults` | client/src/state/p2p.rs:397-411 | after the corrected `with_vault_access(p, u, w, c)`, any later `with_default_vault_access` leaves Use, Write and Clone at `p` resolving to `u`, `w` and `c` |
| `AccessControl.NoneWithDefaultsIsUniform` | client/src/state/p2p.rs:380-403 | `none().with_default_vault_access(u, w, c)` resolves Use, Write and Clone at every vault path to `u`, `w` and `c` |
| `AccessControl.CheckSplits` | client/src/state/p2p.rs:439-440 | the decision on `a + b` is the conjunction of the decisions on `a` and on `b` |
| `AccessControl.DeniedCapabilityDenies` | client/src/state/p2p.rs:439-440 | one denied capability denies the whole request; an empty capability list is allowed once the client resolves |
| `AccessControl.ListIsAnyVaultRight` | client/src/state/p2p.rs:456-473 | List at a vault path is granted iff Use, Write or Clone is granted there |
| `AccessControl.VaultCapabilityResolution` | client/src/state/p2p.rs:441-475 | Use, Write and Clone read their own exception map at the path and fall back to their own default; ReadStore and WriteStore read the flat flags |
| `AccessControl.WithVaultAccessAsWritten` | client/src/state/p2p.rs:406-411 | after `with_vault_access(p,u,w,c)`, Use at `p` is `c`, and Write and Clone at `p` resolve as before the call |
| `AccessControl.WithVaultAccessCounterexample` | client/src/state/p2p.rs:406-411 | `none().with_vault_access([1], true, true, false)` leaves Use and Write at `[1]` denied; the corrected builder grants both |
| `AccessControl.ExceptionOverridesVaultDefault` | client/src/state/p2p.rs:441-445 | with `none()` refined by the program's own `with_vault_access("v1", false, false, true)` (the last flag lands in the Use map), Use and List on "v1" are allowed and on "v2" denied |
| `Requests.IntoWriteToVault` | client/src/state/p2p.rs:222-235 | `From<WriteToRemoteVault> for WriteToVault` loses nothing: converting back gives the original message |
| `Requests.IntoWriteToRemoteVault` | client/src/state/p2p.rs:237-250 | `From<WriteToVault> for WriteToRemoteVault` copies location, payload and hint field for field |
| `Requests.WriteConversionsRoundTrip` | client/src/state/p2p.rs:222-250 | the two `From` conversions between `WriteToRemoteVault` and `WriteToVault` are mutually inverse and copy location, payload and hint |
| `Requests.ProcedureAccess` | client/src/state/p2p.rs:523-546 | a RevokeData or GarbageCollect procedure needs exactly `[Write]` on its own vault; any other needs one capability per declared location, Use on its input first and Write on its output last, and nothing else |
| `Requests.ProcedureLocationsSingle` | client/src/state/p2p.rs:520-547 | a batch of one procedure needs exactly what that procedure needs |
| `Requests.ProcedureLocations` | client/src/state/p2p.rs:520-547 | a batch needs at most two capabilities per procedure, each of them Use or Write; its exact content follows from `ProcedureLocationsSingle` and `ProcedureLocationsAppend` |
| `Requests.ProcedureLocationsAppend` | client/src/state/p2p.rs:520-547 | the needs of a concatenated batch are the in-order concatenation of the needs of its parts |
| `Requests.Classify` | client/src/state/p2p.rs:491-550 | the client path is copied; every request other than a batch needs exactly one capability; a batch needs only Use and Write, namely the in-order needs of its procedures |
| `Requests.CollectProcedureAccess` | client/src/state/p2p.rs:520-547 | the loop with its two conditional pushes yields exactly the in-order needs of the batch |
| `Requests.FromRequest` | client/src/state/p2p.rs:491-550 | the step-by-step classifier agrees with `Classify` on every request |
| `Requests.ClassifySingleRequests` | client/src/state/p2p.rs:494-519 | CheckVault, ListIds and CheckRecord need List on the vault; ReadFromVault needs Clone; WriteToRemoteVault and RevokeData need Write; ReadFromStore needs exactly `[ReadStore]`; WriteToStore and DeleteFromStore need exactly `[WriteStore]` |
| `Requests.ProcedureAccessGranted` | client/src/state/p2p.rs:523-546 | the needs of one procedure are granted iff its permission-level condition holds: Write on its vault for a deleting procedure, Use on a declared input and Write on a declared output otherwise |
| `Requests.ProcedureLocationsGranted` | client/src/state/p2p.rs:520-547 | the needs of a batch are granted iff every procedure in it meets that condition |
| `Requests.BatchDecision` | client/src/state/p2p.rs:520-547 | the firewall allows a batch iff the client resolves to some permissions and each procedure is permitted by them, stated on the Use and Write exception-then-default lookups |
| `Requests.BatchDecisionSplits` | client/src/state/p2p.rs:520-547 | a batch is allowed iff each of its two halves would be allowed |
| `Requests.ReadAWriteBDenied` | client/src/state/p2p.rs:532-545 | with Use on vault A granted through the program's own `with_vault_access(A, false, false, true)` and nothing else, a procedure reading A and writing B is denied, while reading A alone is allowed |
| `Requests.UndeclaredProcedureNeedsNothing` | client/src/state/p2p.rs:532-545 | a procedure with neither input nor output needs no capability and is allowed whenever the client resolves, even to `none()` |
| `Requests.StoreReadNeedsOnlyReadStore` | client/src/state/p2p.rs:516-519 | with store read granted and nothing else, `ReadFromStore` is allowed and `DeleteFromStore` denied |
| `Requests.SingleClientGrantScenario` | client/src/state/p2p.rs:490-519 | with default `allow_none()` and `all()` for "alice": her vault write, store write and list are allowed, and the same vault write for "bob" is denied |
| `ResultEnvelope.FromUnit` | client/src/state/p2p.rs:31-35 | `From` for `()`: `TryFrom` of the envelope gives back `Ok` of the same value |
| `ResultEnvelope.TryIntoUnit` | client/src/state/p2p.rs:36-45 | `TryFrom` for `()` succeeds iff the variant is `Empty`, and then the envelope is exactly that variant carrying the returned value |
| `ResultEnvelope.FromBool` | client/src/state/p2p.rs:31-35 | `From` for `bool`: `TryFrom` of the envelope gives back `Ok` of the same value |
| `ResultEnvelope.TryIntoBool` | client/src/state/p2p.rs:36-45 | `TryFrom` for `bool` succeeds iff the variant is `Bool`, and then the envelope is exactly that variant carrying the returned value |
| `ResultEnvelope.FromData` | client/src/state/p2p.rs:31-35 | `From` for `Option<Vec<u8>>`: `TryFrom` of the envelope gives back `Ok` of the same value |
| `ResultEnvelope.TryIntoData` | client/src/state/p2p.rs:36-45 | `TryFrom` for `Option<Vec<u8>>` succeeds iff the variant is `Data`, and then the envelope is exactly that variant carrying the returned value |
| `ResultEnvelope.FromListIds` | client/src/state/p2p.rs:31-35 | `From` for the id/hint list: `TryFrom` of the envelope gives back `Ok` of the same value |
| `ResultEnvelope.TryIntoListIds` | client/src/state/p2p.rs:36-45 | `TryFrom` for the id/hint list succeeds iff the variant is `ListIds`, and then the envelope is exactly that variant carrying the returned value |
| `ResultEnvelope.FromProc` | client/src/state/p2p.rs:31-35 | `From` for the procedure result: `TryFrom` of the envelope gives back `Ok` of the same value |
| `ResultEnvelope.TryIntoProc` | client/src/state/p2p.rs:36-45 | `TryFrom` for the procedure result succeeds iff the variant is `Proc`, and then the envelope is exactly that variant carrying the returned value |
| `ResultEnvelope.FromRecordResult` | client/src/state/p2p.rs:303-307 | a record-write result becomes `WriteRemoteVault`; success stays success and an error becomes its rendering |
| `ResultEnvelope.TryIntoRemoteRecordResult` | client/src/state/p2p.rs:309-318 | succeeds iff the variant is `WriteRemoteVault`, returning exactly the carried result |
| `ResultEnvelope.RoundTrips` | client/src/state/p2p.rs:29-47 | `TryFrom(From(x)) == Ok(x)` for the five mapped types; for record writes, `Err(e)` comes back as `Err(to_string(e))` |
| `ResultEnvelope.MismatchedVariantIsLocalError` | client/src/state/p2p.rs:36-45 | a wrong-variant conversion gives `Err(())`; a failed procedure is still a well-tagged `Proc` |
| `ResultEnvelope.ExactlyOneConversionSucceeds` | client/src/state/p2p.rs:287-318 | for every envelope exactly one `TryFrom` conversion succeeds |
| `Config.NetworkConfig.New` | client/src/state/p2p.rs:165-170 | the given permissions become the default; there are no per-peer overrides, no timeouts, limits or addresses; mdns and relay are off |
| `Config.NetworkConfig.WithRequestTimeout` | client/src/state/p2p.rs:175-178 | sets the request timeout and nothing else |
| `Config.NetworkConfig.WithConnectionsLimit` | client/src/state/p2p.rs:182-185 | sets the connection limits and nothing else |
| `Config.NetworkConfig.WithConnectionTimeout` | client/src/state/p2p.rs:188-191 | sets the connection timeout and nothing else |
| `Config.NetworkConfig.WithMdnsEnabled` | client/src/state/p2p.rs:195-198 | sets the mdns flag and nothing else |
| `Config.NetworkConfig.WithRelayEnabled` | client/src/state/p2p.rs:202-205 | sets the relay flag and nothing else |
| `Config.NetworkConfig.WithAddressInfo` | client/src/state/p2p.rs:208-211 | sets the known addresses and nothing else |
| `Config.SettersKeepPermissions` | client/src/state/p2p.rs:175-211 | each transport setter, on any configuration, keeps the per-peer permissions and the default permissions unchanged; so does any chain of them |

## Left out

- The `Network` actor and `Network::new` (lines 53-121) are left out. They are channel setup, an actix actor and the asynchronous libp2p swarm build, so all of it is I/O and runtime plumbing. As a result, no rule is chosen per peer from `peer_permissions`, because that lookup happens inside the transport crate.
- `Permissions::into_rule` (lines 354-360) only wraps `check` in a closure for the transport's foreign `Rule` type. `AccessControl.Check` is that rule.
- The `Serialize`/`Deserialize` impls of `NetworkConfig` (lines 140-156) are `todo!()`, and serde wire formats are foreign code. So the request envelope's serialisation round trip is not modelled.
- The `enum_from_inner!` wrappers from each message into `Request` (lines 276-285) are not modelled. Each is a plain variant constructor, which is what the `Request` constructors are.
- `StrongholdProcedure::input()` and `output()` are defined in a file that is not part of this model. Every procedure other than RevokeData and GarbageCollect is therefore `Other(name, input, output)`, with the two declared locations as fields.
- The store messages keep only their key (and, for writes, their payload). Their other fields are not part of this model, and the classifier ignores them anyway.
- `Location` is reduced to a vault path plus a record path. The code only ever asks for `vault_path()`.
- `RecordError::to_string` is passed in as the parameter `render`.
- Record ids, hints, procedure outputs and errors, durations, connection limits, address info and peer ids are opaque types. The core only stores and compares them.
- Rust's `HashMap` is a Dafny `map`. The evaluator only does point lookups, so iteration order plays no part.
- `ReadFromVault` is a test-only variant. It is kept and classified as in the test build.

## Findings

| source | as written | input that shows it | evidently intended | confidence | as-written member | corrected member |
|---|---|---|---|---|---|---|
| client/src/state/p2p.rs:406-411 | `with_vault_access` inserts the use, write and clone flags into `use_vault_exceptions` in turn, so only the clone flag remains, and Write and Clone get no exception | `ClientPermissions::none().with_vault_access([1], true, true, false)` denies Use and Write on vault `[1]` | each flag goes into its own exception map: use, write and clone | high, not executed | `AccessControl.WithVaultAccessCounterexample` | `AccessControl.ClientPermissions.WithVaultAccessIntended` |
