/** The result envelope: one closed sum type that carries the native result
    of every remote operation back over the single untyped channel, with a
    conversion into it from each native result type and a fallible
    conversion back out that fails when the variant does not match. */
module ResultEnvelope {
  import opened Common

  /** The error a remote record write reports: `RecordError` rendered as a string. */
  type RemoteRecordError = string

  datatype ShResult =
    | Empty(unit: ())
    | Data(data: Option<Bytes>)
    | Bool(flag: bool)
    | WriteRemoteVault(outcome: Result<(), RemoteRecordError>)
    | ListIds(ids: seq<(RecordId, RecordHint)>)
    | Proc(proc: Result<seq<ProcedureOutput>, ProcedureError>)

  // One `From` / `TryFrom` pair per mapped type. Every `TryFrom` succeeds on
  // its own variant, and on any other variant yields `Err(())`.

  function FromUnit(u: ()): (s: ShResult)
    ensures TryIntoUnit(s) == Ok(u)
  {
    Empty(u)
  }

  function TryIntoUnit(s: ShResult): (r: Result<(), ()>)
    ensures r.Ok? <==> s.Empty?
    ensures r.Ok? ==> s == Empty(r.value)
  {
    if s.Empty? then Ok(s.unit) else Err(())
  }

  function FromBool(b: bool): (s: ShResult)
    ensures TryIntoBool(s) == Ok(b)
  {
    Bool(b)
  }

  function TryIntoBool(s: ShResult): (r: Result<bool, ()>)
    ensures r.Ok? <==> s.Bool?
    ensures r.Ok? ==> s == Bool(r.value)
  {
    if s.Bool? then Ok(s.flag) else Err(())
  }

  function FromData(d: Option<Bytes>): (s: ShResult)
    ensures TryIntoData(s) == Ok(d)
  {
    Data(d)
  }

  function TryIntoData(s: ShResult): (r: Result<Option<Bytes>, ()>)
    ensures r.Ok? <==> s.Data?
    ensures r.Ok? ==> s == Data(r.value)
  {
    if s.Data? then Ok(s.data) else Err(())
  }

  function FromListIds(ids: seq<(RecordId, RecordHint)>): (s: ShResult)
    ensures TryIntoListIds(s) == Ok(ids)
  {
    ListIds(ids)
  }

  function TryIntoListIds(s: ShResult): (r: Result<seq<(RecordId, RecordHint)>, ()>)
    ensures r.Ok? <==> s.ListIds?
    ensures r.Ok? ==> s == ListIds(r.value)
  {
    if s.ListIds? then Ok(s.ids) else Err(())
  }

  function FromProc(p: Result<seq<ProcedureOutput>, ProcedureError>): (s: ShResult)
    ensures TryIntoProc(s) == Ok(p)
  {
    Proc(p)
  }

  function TryIntoProc(s: ShResult): (r: Result<Result<seq<ProcedureOutput>, ProcedureError>, ()>)
    ensures r.Ok? <==> s.Proc?
    ensures r.Ok? ==> s == Proc(r.value)
  {
    if s.Proc? then Ok(s.proc) else Err(())
  }

  /** The hand-written pair for record writes. The local result carries a
      `RecordError`, which crosses the wire as its string rendering;
      `render` stands for `RecordError::to_string`. */
  function FromRecordResult(inner: Result<(), RecordError>, render: RecordError -> RemoteRecordError): (s: ShResult)
    ensures s.WriteRemoteVault?
    ensures s.outcome.Ok? <==> inner.Ok?
    ensures inner.Err? ==> s.outcome.error == render(inner.error)
  {
    WriteRemoteVault(MapErr(inner, render))
  }

  function TryIntoRemoteRecordResult(s: ShResult): (r: Result<Result<(), RemoteRecordError>, ()>)
    ensures r.Ok? <==> s.WriteRemoteVault?
    ensures r.Ok? ==> WriteRemoteVault(r.value) == s
  {
    if s.WriteRemoteVault? then Ok(s.outcome) else Err(())
  }

  /** Every native value survives the trip into the envelope and back; a
      record-write error comes back as its rendering. */
  lemma RoundTrips(u: (), b: bool, d: Option<Bytes>, ids: seq<(RecordId, RecordHint)>,
                   p: Result<seq<ProcedureOutput>, ProcedureError>,
                   w: Result<(), RecordError>, render: RecordError -> RemoteRecordError)
    ensures TryIntoUnit(FromUnit(u)) == Ok(u)
    ensures TryIntoBool(FromBool(b)) == Ok(b)
    ensures TryIntoData(FromData(d)) == Ok(d)
    ensures TryIntoListIds(FromListIds(ids)) == Ok(ids)
    ensures TryIntoProc(FromProc(p)) == Ok(p)
    ensures w.Ok? ==> TryIntoRemoteRecordResult(FromRecordResult(w, render)) == Ok(Ok(w.value))
    ensures w.Err? ==> TryIntoRemoteRecordResult(FromRecordResult(w, render)) == Ok(Err(render(w.error)))
  {
  }

  /** Unwrapping an envelope as the wrong native type is a local error
      `Err(())`, never a value: e.g. a `Bool` result is not `Data`, and a
      failed procedure is still a well-tagged `Proc`, not a tag mismatch. */
  lemma MismatchedVariantIsLocalError(b: bool, e: ProcedureError)
    ensures TryIntoData(FromBool(b)) == Err(())
    ensures TryIntoBool(FromData(None)) == Err(())
    ensures TryIntoUnit(FromBool(b)) == Err(())
    ensures TryIntoRemoteRecordResult(FromProc(Err(e))) == Err(())
    ensures TryIntoProc(FromProc(Err(e))) == Ok(Err(e))
  {
  }

  /** For every envelope exactly one of the `TryFrom` conversions succeeds:
      the variant tag alone decides which native type it holds. */
  lemma ExactlyOneConversionSucceeds(s: ShResult)
    ensures TryIntoUnit(s).Ok? || TryIntoBool(s).Ok? || TryIntoData(s).Ok? ||
            TryIntoListIds(s).Ok? || TryIntoProc(s).Ok? || TryIntoRemoteRecordResult(s).Ok?
    ensures TryIntoUnit(s).Ok? ==> TryIntoBool(s).Err? && TryIntoData(s).Err? && TryIntoListIds(s).Err? &&
                                   TryIntoProc(s).Err? && TryIntoRemoteRecordResult(s).Err?
    ensures TryIntoBool(s).Ok? ==> TryIntoData(s).Err? && TryIntoListIds(s).Err? &&
                                   TryIntoProc(s).Err? && TryIntoRemoteRecordResult(s).Err?
    ensures TryIntoData(s).Ok? ==> TryIntoListIds(s).Err? && TryIntoProc(s).Err? && TryIntoRemoteRecordResult(s).Err?
    ensures TryIntoListIds(s).Ok? ==> TryIntoProc(s).Err? && TryIntoRemoteRecordResult(s).Err?
    ensures TryIntoProc(s).Ok? ==> TryIntoRemoteRecordResult(s).Err?
  {
  }
}
