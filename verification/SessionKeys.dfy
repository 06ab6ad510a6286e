/** What the session maps of both engines are keyed by, and how long a recovery session lives. */
module SessionKeys {
  const SESSION_TTL: nat := 300

  datatype Op = Keygen | Recover | Sign

  datatype Key = Key(op: Op, sid: string)
}
