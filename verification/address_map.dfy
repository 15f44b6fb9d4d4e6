/**
 The fixed addresses of the guest's address space (include/cross_shim.h).
 */
module AddressMap {
  const HLE_BASE: nat := 0x1000_0000
  const HLE_SIZE: nat := 0x0010_0000
  const CODE_BASE: nat := 0x4000_0000
  const HEAP_BASE: nat := 0x6000_0000
  const HEAP_SIZE: nat := 0x1000_0000
  const STACK_BASE: nat := 0x8000_0000
  const GLOBAL_DATA_BASE: nat := 0xB000_0000
  const DYNAMIC_ALLOC_BASE: nat := 0x2_0000_0000
  const PAGE_SIZE: nat := 0x1000
}

module Options {
  datatype Option<T> = None | Some(value: T)
}
