/** Values shared by every part of the model. */
module Core {

  datatype Option<+T> = None | Some(value: T)

  /** The error classes of `AppError` that the modelled calls return. */
  datatype Error =
    | NotFound
    | BadRequest
    | Unauthorized
    | Unavailable
    | Conflict
    | Internal
    | InvalidRefreshToken
    | RefreshTokenReuse

  datatype Result<+T> = Ok(value: T) | Err(error: Error)

  /** What a service call answers; the new tables travel beside it. */
  datatype Status = Done | Failed(error: Error)

  /** A 128-bit identifier. `Uuid::new_v4` is a parameter of every call that draws one. */
  type Uuid = n: nat | n < 0x1_0000_0000_0000_0000_0000_0000_0000_0000

  /** A database timestamp (`now()` is the clock of the tables). */
  type Time = int

  lemma {:induction false} SubsetSize<T>(s: set<T>, t: set<T>)
    requires s <= t
    ensures |s| <= |t|
  {
    if s != {} {
      var x :| x in s;
      SubsetSize(s - {x}, t - {x});
    }
  }
}
