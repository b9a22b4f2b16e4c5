/** usize on a 64-bit target, with its saturating operations. */
module MachineInts {
  const USIZE_MAX: nat := 0xFFFF_FFFF_FFFF_FFFF
  type Usize = n: nat | n <= USIZE_MAX

  function SaturatingAdd(a: Usize, b: Usize): Usize { if a + b > USIZE_MAX then USIZE_MAX else a + b }
  function SaturatingSub(a: Usize, b: Usize): Usize { if a < b then 0 else a - b }
}
