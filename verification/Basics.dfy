// Types shared by the whole model, and what the POSIX calls on one regular file do to its bytes.

module Basics {

  datatype Option<+T> = None | Some(value: T)

  /** A slash-rooted path, as the client passes it to a server. */
  type Path = string

  /** The bytes of a file; as in `std::string`, a byte is a `char`. */
  type Data = seq<char>

  /** The entry of `m` at `k`, if there is one. */
  function Lookup<K, V>(m: map<K, V>, k: K): Option<V> {
    if k in m then Some(m[k]) else None
  }

  function Zeros(n: nat): (r: Data)
    ensures |r| == n && forall k :: 0 <= k < n ==> r[k] == '\0'
  {
    seq(n, _ => '\0')
  }

  /** `ftruncate`: cut the file, or extend it with zero bytes. */
  function Resize(d: Data, size: nat): (r: Data)
    ensures |r| == size
    ensures forall k :: 0 <= k < size ==> r[k] == if k < |d| then d[k] else '\0'
  {
    if size <= |d| then d[..size] else d + Zeros(size - |d|)
  }

  /** `pwrite`: the bytes of `buf` land at `offset`; a gap before them reads as zeros. */
  function WriteAt(d: Data, offset: nat, buf: Data): (r: Data)
    ensures |buf| == 0 ==> r == d
    ensures |buf| > 0 ==> |r| == if |d| < offset + |buf| then offset + |buf| else |d|
    ensures |buf| > 0 ==> forall k :: 0 <= k < |r| ==>
      r[k] == if offset <= k < offset + |buf| then buf[k - offset] else if k < |d| then d[k] else '\0'
  {
    if |buf| == 0 then d else
      var base := if |d| < offset + |buf| then Resize(d, offset + |buf|) else d;
      base[..offset] + buf + base[offset + |buf|..]
  }

  /** `pread`: at most `size` bytes from `offset`. */
  function ReadAt(d: Data, offset: nat, size: nat): (r: Data)
    ensures |r| == if |d| <= offset then 0 else if size < |d| - offset then size else |d| - offset
    ensures forall k :: 0 <= k < |r| ==> r[k] == d[offset + k]
  {
    if |d| <= offset then []
    else if size < |d| - offset then d[offset..offset + size] else d[offset..]
  }
}
