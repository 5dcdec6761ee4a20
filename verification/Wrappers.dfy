/** The stock result shapes the other modules share. */
module Wrappers {
  datatype Option<+T> = None | Some(value: T)

  datatype Result<+T> = Ok(value: T) | Err(message: string)

  /** How a write to a remote store ends: carried out; carried out but the reply lost; or not carried out. */
  datatype Write = Carried | ReplyLost | NotCarried

  predicate Lands(w: Write) { w != NotCarried }

  function Max(x: int, y: int): int { if x < y then y else x }

  function Min(x: int, y: int): int { if x < y then x else y }
}
