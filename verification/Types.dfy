/** Values shared by every component: optional values, error codes and endpoint keys. */
module Types {
  datatype Option<+T> = None | Some(value: T)

  /** The client's error codes; `OK` is hiredis' own success code. */
  datatype Code =
    | OK
    | UNKNOWN
    | HIREDIS
    | TTL
    | CONNECTION
    | SLOT_UNAVAILABLE
    | CREATE
    | TIMEOUT
    | NOT_FOUND
    | TIMER_NOT_AVAILABLE

  /** An endpoint: the pool is indexed by `name`, which is made from `ip` and `port`. */
  datatype Key = Key(name: string, ip: string, port: nat)

  const SLOT_NUMBER: nat := 16384
  const TTL_MAX: nat := 16
}
