/** Values shared by the models: keys, addresses, connection identities and transactions. */
module Types {

  datatype Option<+T> = None | Some(value: T)

  /** A validator identity; `Pubkey(0)` plays the role of the all-zero default key. */
  datatype Pubkey = Pubkey(id: nat)

  datatype SocketAddr = SocketAddr(id: nat)

  datatype Signature = Signature(id: nat)

  /** A point of a monotonic clock, in ticks. */
  type Instant = nat

  /** One incarnation of a connection: the address it goes to and the version it was given.
      Both the orphan set and the eviction set hold such pairs. */
  datatype ConnectionId = ConnectionId(addr: SocketAddr, version: nat)

  type Byte = b: int | 0 <= b < 256

  /** A transaction with the one peer it must be sent to. */
  datatype Txn = Txn(sig: Signature, wire: seq<Byte>, peer: Pubkey)

  /** A transaction in a queue, with the number of the send attempt it waits for. */
  datatype Entry = Entry(tx: Txn, attempt: nat)

  ghost predicate NoDuplicates<T>(s: seq<T>) {
    forall i, j :: 0 <= i < j < |s| ==> s[i] != s[j]
  }

  function Elements<T>(s: seq<T>): set<T> {
    set x | x in s
  }

  /** The first occurrence of each element, in order. */
  function Distinct<T(==)>(s: seq<T>): (r: seq<T>)
    ensures forall x | x in r :: x in s
    ensures forall x | x in s :: x in r
    ensures NoDuplicates(r)
  {
    if s == [] then []
    else
      var n := |s| - 1;
      var before := Distinct(s[..n]);
      assert s == s[..n] + [s[n]];
      if s[n] in s[..n] then before else before + [s[n]]
  }

  function Min(a: int, b: int): int {
    if a <= b then a else b
  }

  function Max(a: int, b: int): int {
    if a >= b then a else b
  }

  function Saturating(a: int): nat {
    if a < 0 then 0 else a
  }
}
