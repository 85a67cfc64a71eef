/**
 * The remote process as the snapshot builder sees it. The real reads go
 * through an operating-system handle; here the target's memory is a set
 * of maps from address to typed value, one map per value type the builder
 * reads, plus a flag saying whether a process handle is open.
 */
module Driver {
  import opened Structs

  datatype Process = Process(
    attached: bool,                    // a process handle is open
    words: map<U64, U64>,              // 8-byte pointers and integers
    dwords: map<U64, U32>,             // 4-byte unsigned integers
    floats: map<U64, real>,            // 4-byte floats
    flags: map<U64, bool>,             // 1-byte booleans
    vectors: map<U64, Vector3>,        // 12-byte Vector3 records
    matrices: map<U64, ViewMatrix>,    // 64-byte view matrices
    bytes: map<U64, seq<char>>)        // readable character runs starting at an address

  /** Address arithmetic on 64-bit unsigned integers wraps around. */
  function Plus(address: U64, offset: int): (r: U64)
    requires offset >= 0
    ensures r == (address + offset) % TWO_POW_64
    ensures address + offset < TWO_POW_64 ==> r == address + offset
  {
    (address + offset) % TWO_POW_64
  }

  /**
   * `ReadMemory`: copies the value stored at `address` into the caller's
   * `buffer` and reports success. Without a handle, at address 0, or where
   * nothing is readable it fails and the buffer keeps its old value.
   */
  function ReadMemory<T>(attached: bool, cells: map<U64, T>, address: U64, buffer: T): (r: (bool, T))
    ensures !attached || address == 0 ==> r == (false, buffer)
    ensures r.0 <==> attached && address != 0 && address in cells
    ensures r.0 ==> r.1 == cells[address]
  {
    if attached && address != 0 && address in cells then (true, cells[address]) else (false, buffer)
  }

  /** `Read<T>`: the value at `address`, or the type's zero `T{}` when the read fails. */
  function Read<T>(attached: bool, cells: map<U64, T>, address: U64, zero: T): (v: T)
    ensures !attached || address == 0 || address !in cells ==> v == zero
    ensures attached && address != 0 && address in cells ==> v == cells[address]
  {
    ReadMemory(attached, cells, address, zero).1
  }

  function ReadU64(mem: Process, address: U64): U64 {
    Read(mem.attached, mem.words, address, 0)
  }

  function ReadU32(mem: Process, address: U64): U32 {
    Read(mem.attached, mem.dwords, address, 0)
  }

  function ReadF32(mem: Process, address: U64): real {
    Read(mem.attached, mem.floats, address, 0.0)
  }

  function ReadBool(mem: Process, address: U64): bool {
    Read(mem.attached, mem.flags, address, false)
  }

  /**
   * `ReadMemory(address, buffer, size)` into a character buffer: succeeds
   * only when `size` bytes are readable there, and then overwrites the
   * first `size` characters; the rest of the buffer is never touched.
   */
  function ReadBytes(mem: Process, address: U64, size: nat, buffer: seq<char>): (r: (bool, seq<char>))
    requires size <= |buffer|
    ensures |r.1| == |buffer| && r.1[size..] == buffer[size..]
    ensures !r.0 ==> r.1 == buffer
    ensures r.0 <==> mem.attached && address != 0 && address in mem.bytes && |mem.bytes[address]| >= size
    ensures r.0 ==> r.1[..size] == mem.bytes[address][..size]
  {
    if mem.attached && address != 0 && address in mem.bytes && |mem.bytes[address]| >= size then
      (true, mem.bytes[address][..size] + buffer[size..])
    else
      (false, buffer)
  }

  /** Every typed read at the null address, or without a handle, yields the zero value. */
  lemma NullReadsAreZero(mem: Process, address: U64)
    requires !mem.attached || address == 0
    ensures ReadU64(mem, address) == 0 && ReadU32(mem, address) == 0
    ensures ReadF32(mem, address) == 0.0 && !ReadBool(mem, address)
  {
  }
}
