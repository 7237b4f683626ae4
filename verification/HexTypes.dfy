/** The values shared by every layer: byte strings, machine integers, log entries and errors. */
module HexTypes {

  type byte = x: int | 0 <= x < 0x100
  type uint32 = x: int | 0 <= x < 0x1_0000_0000
  type uint64 = x: int | 0 <= x < 0x1_0000_0000_0000_0000

  type Bytes = seq<byte>

  /** The id of an entry: the hash of its contents, or all zeros where there is none. */
  datatype Id = Id(bytes: Bytes)

  datatype Key = Key(bytes: Bytes)

  type Host = string

  datatype Option<+T> = None | Some(value: T)

  /** A log entry (rpc.proto); `previous` is the id of the entry before it, all zeros for the first. */
  datatype Entry = Entry(key: Key, previous: Id, height: uint32, timestamp: uint64, ltime: uint64, data: Bytes)

  datatype Error =
    | ErrPreviousHash
    | ErrKeyExists
    | ErrKeyNotFound
    | ErrKeyDegraded
    | ErrKeyInvalid
    | ErrEntryNotFound
    | ErrNotLastEntry
    | ErrInsufficientPeers
    | ErrNotInPeerSet
    | ErrBallotClosed
    | ErrBallotNotFound
    | ErrBallotTimedOut
    | ErrInvalidVoteID
    | ErrNoLeader
    | ErrTransport

  /** Conversion to an unsigned 32-bit integer, which wraps around. */
  function ToUint32(n: int): (r: uint32)
    ensures (n - r) % 0x1_0000_0000 == 0
  {
    n % 0x1_0000_0000
  }
}
