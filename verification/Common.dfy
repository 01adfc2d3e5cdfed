/** Small vocabulary shared by every module: optional values, results and the error kinds of the HTTP layer. */
module Common {

  datatype Option<+T> = None | Some(value: T)

  /** The exceptions the services throw; `Internal` is an uncaught database error (HTTP 500). */
  datatype Error = BadRequest | Unauthorized | Forbidden | NotFound | Conflict | Internal

  datatype Result<+T> = Ok(value: T) | Err(error: Error)

  /** Milliseconds, as JavaScript dates count them. */
  type Time = int

  /** UUID columns. Fresh ones are drawn from a counter; otherwise only equality and the order matter. */
  type Id = nat

  const MINUTE: int := 60 * 1000
  const DAY: int := 24 * 60 * MINUTE

  lemma Regroup<T>(x: seq<T>, y: seq<T>, z: seq<T>)
    ensures (x + y) + z == x + (y + z)
  {}

  /** A subset is no larger, and of the same size only when it is the whole set. */
  lemma SubsetSize<T>(a: set<T>, b: set<T>)
    requires a <= b
    ensures |a| <= |b| && (|a| == |b| <==> a == b)
  {
    assert b == a + (b - a);
  }
}
