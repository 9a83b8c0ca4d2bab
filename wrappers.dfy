/** Optional values, used for absent request fields and failed lookups. */
module Wrappers {
  datatype Option<+T> = None | Some(value: T)

  /** An HTTP answer: a status code with a body, or a status code with an error message. */
  datatype Reply<+T> = Reply(code: nat, body: T) | Error(code: nat, message: string)
}
