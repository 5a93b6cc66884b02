/** Octets, as files, sockets and pipes carry them. */
module Bytes {
  newtype Byte = x: int | 0 <= x < 256

  /** The bytes of consecutive reads or chunks, joined. */
  ghost function Flat(parts: seq<seq<Byte>>): seq<Byte> {
    if parts == [] then [] else Flat(parts[..|parts| - 1]) + parts[|parts| - 1]
  }

  lemma FlatMore(parts: seq<seq<Byte>>, part: seq<Byte>)
    ensures Flat(parts + [part]) == Flat(parts) + part
  {
    assert (parts + [part])[..|parts|] == parts;
  }
}
