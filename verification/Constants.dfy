/** Numbers that several parts of the model share. */
module Constants {

  const TWO_32 := 0x1_0000_0000
  const TWO_64 := 0x1_0000_0000_0000_0000
  const PAGE_SIZE := 4096
  const EINVAL := 22

  /** KKM_INTR_SYSCALL */
  const INTR_SYSCALL := 511
}
