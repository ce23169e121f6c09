/** The requests a remote peer can send to a client of this node, and the
    classifier that derives from each request the capabilities the firewall
    must grant before the request reaches the client. */
module Requests {
  import opened Common
  import opened AccessControl

  /** A cryptographic procedure run inside a vault. Revoking a record and
      collecting a vault's garbage are told apart; every other procedure is
      known to the classifier only through the locations it declares as its
      input and its output. */
  datatype Procedure =
    | RevokeData(location: Location)
    | GarbageCollect(vaultPath: Bytes)
    | Other(name: string, input: Option<Location>, output: Option<Location>)

  /** A record write as it travels to a remote client. */
  datatype WriteToRemoteVault = WriteToRemoteVault(location: Location, payload: Bytes, hint: RecordHint)

  /** The same record write as the local client handles it. */
  datatype WriteToVault = WriteToVault(location: Location, payload: Bytes, hint: RecordHint)

  /** Every operation a remote peer can invoke. `ReadFromVault` exists only
      when the crate is built for its tests. */
  datatype Request =
    | CheckVault(vaultPath: Bytes)
    | CheckRecord(location: Location)
    | ListIds(vaultPath: Bytes)
    | ReadFromVault(location: Location)
    | WriteToRemoteVault(write: WriteToRemoteVault)
    | RevokeData(location: Location)
    | ReadFromStore(key: Bytes)
    | WriteToStore(key: Bytes, payload: Bytes)
    | DeleteFromStore(key: Bytes)
    | Procedures(procedures: seq<Procedure>)

  /** The envelope: a request tagged with the client it addresses. */
  datatype ShRequest = ShRequest(clientPath: Bytes, request: Request)

  /** `From<WriteToRemoteVault> for WriteToVault`: moves the three fields across. */
  function IntoWriteToVault(t: WriteToRemoteVault): (v: WriteToVault)
    ensures IntoWriteToRemoteVault(v) == t
  {
    WriteToVault(t.location, t.payload, t.hint)
  }

  /** `From<WriteToVault> for WriteToRemoteVault`. */
  function IntoWriteToRemoteVault(t: WriteToVault): (r: WriteToRemoteVault)
    ensures r.location == t.location && r.payload == t.payload && r.hint == t.hint
  {
    WriteToRemoteVault.WriteToRemoteVault(t.location, t.payload, t.hint)
  }

  /** The two conversions are mutually inverse, so no field is lost or altered. */
  lemma WriteConversionsRoundTrip(remote: WriteToRemoteVault, local: WriteToVault)
    ensures IntoWriteToRemoteVault(IntoWriteToVault(remote)) == remote
    ensures IntoWriteToVault(IntoWriteToRemoteVault(local)) == local
    ensures IntoWriteToVault(remote).location == remote.location
    ensures IntoWriteToVault(remote).payload == remote.payload
    ensures IntoWriteToVault(remote).hint == remote.hint
  {
  }

  /** What one procedure of a batch needs: deleting procedures need Write on
      their vault; any other procedure needs Use on its input and Write on its
      output, in that order, each only when declared. */
  function ProcedureAccess(proc: Procedure): (r: seq<Access>)
    ensures |r| <= 2
    ensures forall i :: 0 <= i < |r| ==> r[i].Use? || r[i].Write?
    ensures proc.RevokeData? ==> r == [Write(proc.location.vaultPath)]
    ensures proc.GarbageCollect? ==> r == [Write(proc.vaultPath)]
    ensures proc.Other? ==> |r| == (if proc.input.Some? then 1 else 0) + (if proc.output.Some? then 1 else 0)
    ensures r == [] <==> proc.Other? && proc.input.None? && proc.output.None?
    ensures proc.Other? && proc.input.Some? ==> r[0] == Use(proc.input.value.vaultPath)
    ensures proc.Other? && proc.output.Some? ==> r[|r| - 1] == Write(proc.output.value.vaultPath)
  {
    match proc
    case RevokeData(location) => [Write(location.vaultPath)]
    case GarbageCollect(vaultPath) => [Write(vaultPath)]
    case Other(_, input, output) =>
      (if input.Some? then [Use(input.value.vaultPath)] else []) +
      (if output.Some? then [Write(output.value.vaultPath)] else [])
  }

  /** The in-order concatenation of the needs of every procedure of a batch
      (`iter().flat_map(..).collect()`). */
  function ProcedureLocations(procs: seq<Procedure>): (r: seq<Access>)
    ensures |r| <= 2 * |procs|
    ensures forall i :: 0 <= i < |r| ==> r[i].Use? || r[i].Write?
  {
    if procs == [] then [] else ProcedureAccess(procs[0]) + ProcedureLocations(procs[1..])
  }

  /** A batch of one procedure needs exactly what that procedure needs. */
  lemma ProcedureLocationsSingle(proc: Procedure)
    ensures ProcedureLocations([proc]) == ProcedureAccess(proc)
  {
    assert [proc][1..] == [];
  }

  /** Classifying a batch distributes over concatenation of batches. */
  lemma {:induction false} ProcedureLocationsAppend(first: seq<Procedure>, second: seq<Procedure>)
    ensures ProcedureLocations(first + second) == ProcedureLocations(first) + ProcedureLocations(second)
    decreases |first|
  {
    if first == [] {
      assert first + second == second;
    } else {
      assert (first + second)[1..] == first[1..] + second;
      ProcedureLocationsAppend(first[1..], second);
    }
  }

  /** `AccessRequest::from_request`: the client path is copied and every
      request variant is mapped to the capabilities it needs. */
  function Classify(request: ShRequest): (ar: AccessRequest)
    ensures ar.clientPath == request.clientPath
    ensures !request.request.Procedures? ==> |ar.locations| == 1
    ensures request.request.Procedures? ==>
      forall i :: 0 <= i < |ar.locations| ==> ar.locations[i].Use? || ar.locations[i].Write?
    ensures request.request.Procedures? ==> ar.locations == ProcedureLocations(request.request.procedures)
  {
    var locations :=
      match request.request
      case CheckVault(vaultPath) => [List(vaultPath)]
      case ListIds(vaultPath) => [List(vaultPath)]
      case CheckRecord(location) => [List(location.vaultPath)]
      case ReadFromVault(location) => [Clone(location.vaultPath)]
      case WriteToRemoteVault(write) => [Write(write.location.vaultPath)]
      case RevokeData(location) => [Write(location.vaultPath)]
      case ReadFromStore(_) => [ReadStore]
      case WriteToStore(_, _) => [WriteStore]
      case DeleteFromStore(_) => [WriteStore]
      case Procedures(procs) => ProcedureLocations(procs);
    AccessRequest(request.clientPath, locations)
  }

  /** The batch arm of `from_request` as the Rust code runs it: a loop over
      the procedures that appends each one's needs, the general procedure's
      through two conditional pushes onto a local vector. */
  method CollectProcedureAccess(procs: seq<Procedure>) returns (locations: seq<Access>)
    ensures locations == ProcedureLocations(procs)
  {
    locations := [];
    var i := 0;
    while i < |procs|
      invariant 0 <= i <= |procs|
      invariant locations == ProcedureLocations(procs[..i])
    {
      var access: seq<Access>;
      match procs[i] {
        case RevokeData(location) => access := [Write(location.vaultPath)];
        case GarbageCollect(vaultPath) => access := [Write(vaultPath)];
        case Other(_, input, output) =>
          access := [];
          if input.Some? {
            access := access + [Use(input.value.vaultPath)];
          }
          if output.Some? {
            access := access + [Write(output.value.vaultPath)];
          }
      }
      assert access == ProcedureAccess(procs[i]);
      ProcedureLocationsSingle(procs[i]);
      ProcedureLocationsAppend(procs[..i], [procs[i]]);
      assert procs[..i + 1] == procs[..i] + [procs[i]];
      locations := locations + access;
      i := i + 1;
    }
    assert procs[..i] == procs;
  }

  /** `from_request`: one match over the request, delegating a batch to
      `CollectProcedureAccess`. Its nine single-capability arms are the same
      table as in `Classify`; only the batch arm, through
      `CollectProcedureAccess`, is a step-by-step counterpart of the Rust loop. */
  method FromRequest(request: ShRequest) returns (ar: AccessRequest)
    ensures ar == Classify(request)
  {
    var locations: seq<Access>;
    match request.request {
      case CheckVault(vaultPath) => locations := [List(vaultPath)];
      case ListIds(vaultPath) => locations := [List(vaultPath)];
      case CheckRecord(location) => locations := [List(location.vaultPath)];
      case ReadFromVault(location) => locations := [Clone(location.vaultPath)];
      case WriteToRemoteVault(write) => locations := [Write(write.location.vaultPath)];
      case RevokeData(location) => locations := [Write(location.vaultPath)];
      case ReadFromStore(_) => locations := [ReadStore];
      case WriteToStore(_, _) => locations := [WriteStore];
      case DeleteFromStore(_) => locations := [WriteStore];
      case Procedures(procs) => locations := CollectProcedureAccess(procs);
    }
    ar := AccessRequest(request.clientPath, locations);
  }

  // ---------------------------------------------------------------------------
  // Properties of the classifier

  /** Each request other than a batch needs exactly one capability, of the
      kind its operation implies. */
  lemma ClassifySingleRequests(clientPath: Bytes, request: Request)
    ensures request.CheckVault? || request.ListIds? ==>
      Classify(ShRequest(clientPath, request)).locations == [List(request.vaultPath)]
    ensures request.CheckRecord? ==>
      Classify(ShRequest(clientPath, request)).locations == [List(request.location.vaultPath)]
    ensures request.ReadFromVault? ==>
      Classify(ShRequest(clientPath, request)).locations == [Clone(request.location.vaultPath)]
    ensures request.WriteToRemoteVault? ==>
      Classify(ShRequest(clientPath, request)).locations == [Write(request.write.location.vaultPath)]
    ensures request.RevokeData? ==>
      Classify(ShRequest(clientPath, request)).locations == [Write(request.location.vaultPath)]
    ensures request.ReadFromStore? ==> Classify(ShRequest(clientPath, request)).locations == [ReadStore]
    ensures request.WriteToStore? || request.DeleteFromStore? ==>
      Classify(ShRequest(clientPath, request)).locations == [WriteStore]
  {
  }

  /** The firewall decides a batch procedure by procedure: a batch is
      allowed exactly when each of its two halves would be. */
  lemma BatchDecisionSplits(clientPath: Bytes, first: seq<Procedure>, second: seq<Procedure>, permissions: Permissions)
    ensures Check(Classify(ShRequest(clientPath, Procedures(first + second))), permissions) ==
      (Check(Classify(ShRequest(clientPath, Procedures(first))), permissions) &&
       Check(Classify(ShRequest(clientPath, Procedures(second))), permissions))
  {
    ProcedureLocationsAppend(first, second);
    CheckSplits(clientPath, ProcedureLocations(first), ProcedureLocations(second), permissions);
  }

  /** Whether client permissions `q` let one procedure of a batch run,
      stated on the permission fields rather than on the capability list:
      a deleting procedure needs Write on its own vault; any other needs Use
      on its input and Write on its output, where declared. */
  predicate ProcedurePermitted(q: ClientPermissions, proc: Procedure) {
    match proc
    case RevokeData(location) => WriteAllowed(q, location.vaultPath)
    case GarbageCollect(vaultPath) => WriteAllowed(q, vaultPath)
    case Other(_, input, output) =>
      (input.Some? ==> UseAllowed(q, input.value.vaultPath)) &&
      (output.Some? ==> WriteAllowed(q, output.value.vaultPath))
  }

  /** The needs of one procedure are granted iff it is permitted. */
  lemma ProcedureAccessGranted(q: ClientPermissions, proc: Procedure)
    ensures Granted(q, ProcedureAccess(proc)) <==> ProcedurePermitted(q, proc)
  {
    match proc
    case RevokeData(location) =>
      GrantedSingle(q, Write(location.vaultPath));
    case GarbageCollect(vaultPath) =>
      GrantedSingle(q, Write(vaultPath));
    case Other(_, input, output) =>
      var r := ProcedureAccess(proc);
      var u := if input.Some? then [Use(input.value.vaultPath)] else [];
      var w := if output.Some? then [Write(output.value.vaultPath)] else [];
      assert r == u + w;
      GrantedAppend(q, u, w);
      assert Granted(q, u) <==> (input.Some? ==> UseAllowed(q, input.value.vaultPath));
      assert Granted(q, w) <==> (output.Some? ==> WriteAllowed(q, output.value.vaultPath));
  }

  /** The needs of a batch are granted iff every procedure is permitted. */
  lemma {:induction false} ProcedureLocationsGranted(q: ClientPermissions, procs: seq<Procedure>)
    ensures Granted(q, ProcedureLocations(procs)) <==>
      forall i :: 0 <= i < |procs| ==> ProcedurePermitted(q, procs[i])
    decreases |procs|
  {
    if procs != [] {
      ProcedureAccessGranted(q, procs[0]);
      GrantedAppend(q, ProcedureAccess(procs[0]), ProcedureLocations(procs[1..]));
      ProcedureLocationsGranted(q, procs[1..]);
      assert forall i :: 1 <= i < |procs| ==> procs[i] == procs[1..][i - 1];
    }
  }

  /** The firewall's decision on a batch: allowed iff the client resolves
      and each procedure is permitted by the client's permissions. */
  lemma BatchDecision(clientPath: Bytes, procs: seq<Procedure>, permissions: Permissions)
    ensures Check(Classify(ShRequest(clientPath, Procedures(procs))), permissions) <==>
      ResolveClient(permissions, clientPath).Some? &&
      forall i :: 0 <= i < |procs| ==> ProcedurePermitted(ResolveClient(permissions, clientPath).value, procs[i])
  {
    if ResolveClient(permissions, clientPath).Some? {
      ProcedureLocationsGranted(ResolveClient(permissions, clientPath).value, procs);
    }
  }

  /** A procedure that reads from vault A and writes to vault B is denied
      when Write on B is denied, even though Use on A is granted. The Use
      exception on A is made with the builder as written, which stores its
      last flag in the Use map, so Use is passed in that place. */
  lemma ReadAWriteBDenied(clientPath: Bytes, a: Location, b: Location, name: string)
    requires a.vaultPath != b.vaultPath
    ensures var p := ClientPermissions.None().WithVaultAccess(a.vaultPath, false, false, true);
      var perms := Permissions.AllowNone().WithClientPermissions(clientPath, Some(p));
      Check(Classify(ShRequest(clientPath, Procedures([Other(name, Some(a), None)]))), perms) &&
      !Check(Classify(ShRequest(clientPath, Procedures([Other(name, Some(a), Some(b))]))), perms)
  {
  }

  /** A procedure that declares neither an input nor an output needs no
      capability: a batch of such procedures is allowed for every client
      that resolves to some permissions, even `ClientPermissions::none()`. */
  lemma UndeclaredProcedureNeedsNothing(clientPath: Bytes, name: string, permissions: Permissions)
    ensures Classify(ShRequest(clientPath, Procedures([Other(name, None, None)]))).locations == []
    ensures Check(Classify(ShRequest(clientPath, Procedures([Other(name, None, None)]))), permissions) ==
      ResolveClient(permissions, clientPath).Some?
  {
    assert ProcedureLocations([Other(name, None, None)]) == [];
  }

  /** Store reads never need a vault capability: under a client that may
      read its store and touch no vault, a `ReadFromStore` is allowed. */
  lemma StoreReadNeedsOnlyReadStore(clientPath: Bytes, key: Bytes)
    ensures var perms := Permissions.AllowNone().WithClientPermissions(
        clientPath, Some(ClientPermissions.None().WithStoreAccess(true, false)));
      Check(Classify(ShRequest(clientPath, ReadFromStore(key))), perms) &&
      !Check(Classify(ShRequest(clientPath, DeleteFromStore(key))), perms)
  {
  }

  /** Network-wide default `allow_none()` with one client granted `all()`:
      that client may write a vault, write its store and list the vault; a
      write to the same vault of another client is denied. */
  lemma SingleClientGrantScenario(alice: Bytes, bob: Bytes, secrets: Location, hint: RecordHint, payload: Bytes, key: Bytes)
    requires alice != bob
    ensures var perms := Permissions.AllowNone().WithClientPermissions(alice, Some(ClientPermissions.All()));
      var write := Request.WriteToRemoteVault(WriteToRemoteVault.WriteToRemoteVault(secrets, payload, hint));
      Check(Classify(ShRequest(alice, write)), perms) &&
      !Check(Classify(ShRequest(bob, write)), perms) &&
      Check(Classify(ShRequest(alice, WriteToStore(key, payload))), perms) &&
      Check(Classify(ShRequest(alice, ListIds(secrets.vaultPath))), perms)
  {
  }
}
