/** Result carriers shared by every module. A value of `Err` stands for a thrown exception or a
    rejected promise, and `Ok` for an ordinary return. */
module Wrappers {
  datatype Option<+T> = None | Some(value: T)

  datatype Result<+T> = Ok(value: T) | Err(message: string)

  lemma Associate<T>(a: seq<T>, b: seq<T>, c: seq<T>)
    ensures a + (b + c) == a + b + c
  {
  }
}
