/** Values shared by every part of the model: optional values, thrown JavaScript
    values, and the outcome of an asynchronous call that may reject. */
module Common {

  datatype Option<+T> = None | Some(value: T) {
    function GetOr(default: T): T {
      match this
      case Some(v) => v
      case None => default
    }
  }

  /** What a `throw` carries: an `Error` instance with its message, or any
      other value (a string, an object), which `instanceof Error` rejects. */
  datatype Thrown = ErrorValue(message: string) | NonErrorValue

  /** A settled promise: fulfilled with a value or rejected with a thrown value. */
  datatype Result<+T> = Success(value: T) | Failure(error: Thrown)

  /** A toast notification: its variant, title and description. */
  datatype Toast = Toast(destructive: bool, title: string, description: string)

  /** The artist/title pair that the search box, the server action and the
      song service all pass around. */
  datatype SongQuery = SongQuery(artist: string, title: string)
}
