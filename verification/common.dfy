/** Shared vocabulary of the remote-request layer: byte strings, Rust's
    Option and Result, vault locations, and the foreign types that the
    access-control core only passes around. */
module Common {

  /** A Rust `u8`. */
  type Byte = x: int | 0 <= x < 256

  /** A Rust `Vec<u8>`: client paths, vault paths, payloads. */
  type Bytes = seq<Byte>

  datatype Option<+T> = None | Some(value: T)

  /** Rust's `Result<T, E>`; `Result<T, ()>` is the shape of every `TryFrom` here. */
  datatype Result<+T, +E> = Ok(value: T) | Err(error: E)

  /** `m2` is `m1` after `insert(key, value)`: `key` is an entry holding
      `value`, and every other key is an entry of `m2` exactly when it is one
      of `m1`, with the same value. */
  ghost predicate Inserted<K(!new), V>(m1: map<K, V>, m2: map<K, V>, key: K, value: V) {
    && key in m2 && m2[key] == value
    && forall k :: k != key ==> (k in m2 <==> k in m1) && (k in m1 ==> m2[k] == m1[k])
  }

  /** `Result::map_err`. */
  function MapErr<T, E, F>(r: Result<T, E>, f: E -> F): (m: Result<T, F>)
    ensures m.Ok? <==> r.Ok?
    ensures r.Ok? ==> m.value == r.value
    ensures r.Err? ==> m.error == f(r.error)
  {
    match r
    case Ok(v) => Ok(v)
    case Err(e) => Err(f(e))
  }

  /** A record location inside a client. Only its vault path matters to the
      firewall; the rest of the location is carried along untouched. */
  datatype Location = Location(vaultPath: Bytes, recordPath: Bytes)

  // Types owned by other crates or other files; the core only stores,
  // copies and compares them.
  type RecordHint(==)
  type RecordId(==)
  type RecordError(==)
  type ProcedureOutput(==)
  type ProcedureError(==)
  type Duration(==)
  type ConnectionLimits(==)
  type AddressInfo(==)
  type PeerId(==)
}
