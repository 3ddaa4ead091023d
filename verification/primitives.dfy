/**
 * The two library routines every component hashes through, kept uninterpreted:
 * SHA-256 rendered as a hex digest, and JSON serialisation with sorted keys.
 */
module Primitives {
  import opened Text

  /**
   * A JSON value as `json.dumps` and `json.load` see it. Numbers are integers
   * in this model (wall-clock floats are not modelled).
   */
  datatype Json =
    | JNull
    | JBool(b: bool)
    | JInt(i: int)
    | JStr(s: Str)
    | JList(items: seq<Json>)
    | JObject(fields: map<Str, Json>)

  /**
   * `sha256(x)` stands for `hashlib.sha256(x.encode('utf-8')).hexdigest()` and
   * `dumps(j)` for `json.dumps(j, sort_keys=True)`. An object is a map, so two
   * objects with the same members are one value whatever their insertion order:
   * exactly the determinism that `sort_keys=True` buys.
   */
  datatype Crypto = Crypto(sha256: Str -> Str, dumps: Json -> Str)

  /** A hex digest of SHA-256 always has 64 characters. */
  ghost predicate HexDigests(c: Crypto) {
    forall s :: |c.sha256(s)| == 64
  }

  /** `'0' * 64`, the seed a fresh hash engine starts from. */
  const Zeros64: Str := "0000000000000000000000000000000000000000000000000000000000000000"
}
