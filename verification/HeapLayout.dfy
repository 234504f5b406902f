/** Where the kernel heap lies in physical memory. */
module HeapLayout {
  const HEAP_START: nat := 0x600000
  const HEAP_END: nat := 512 * 1024 * 1024 - 1
  const HEAP_SIZE: nat := HEAP_END - HEAP_START + 1
  const BLOCK_SIZE: nat := 64

  datatype MemInfo = MemInfo(total: nat, used: nat, free: int)
}
