/** The operations that travel through the replicated log (raft/common.go, common/common.go).
    Encoding by gob is taken as an exact round trip, so an operation is a value. */
module Commands {

  type Byte = b: int | 0 <= b < 256
  type Bytes = seq<Byte>

  /** A stored value with its expiry time (common.Entry). */
  datatype Entry = Entry(value: Bytes, deadTime: int)

  /** What an operation does. `Batch` holds the decoded pipeline; `Unsupported` stands for the
      read types and unknown types, which must not reach the log. */
  datatype Action =
    | Empty
    | Put(key: string, entry: Entry)
    | Append(key: string, entry: Entry)
    | Del(key: string)
    | DelWithPrefix(prefix: string)
    | Cas(key: string, origin: Bytes, entry: Entry)
    | Batch(ops: seq<Action>)
    | Unsupported

  /** A client operation: `offset` is the client's own sequence number (raft.Op). */
  datatype Op = Op(clientId: int, offset: int, action: Action)
}
