/** Small value types shared by every part of the block-layer model. */
module Types {

  datatype Option<+T> = None | Some(value: T)

  /** A counter for each of BLK_RW_ASYNC and BLK_RW_SYNC. */
  datatype Counts = Counts(async: int, sync: int) {
    function Get(isSync: bool): int {
      if isSync then sync else async
    }

    function Put(isSync: bool, v: int): Counts {
      if isSync then Counts(async, v) else Counts(v, sync)
    }
  }

  /** A flag for each of BLK_RW_ASYNC and BLK_RW_SYNC. */
  datatype Marks = Marks(async: bool, sync: bool) {
    function Get(isSync: bool): bool {
      if isSync then sync else async
    }

    function Put(isSync: bool, v: bool): Marks {
      if isSync then Marks(async, v) else Marks(v, sync)
    }
  }

  function Min(a: int, b: int): int {
    if a <= b then a else b
  }

  function Max(a: int, b: int): int {
    if a >= b then a else b
  }

  /** 1 for true, as in C. */
  function Ones(b: bool): nat { if b then 1 else 0 }

  const TWO_31: int := 0x8000_0000
  const TWO_32: int := 0x1_0000_0000
  const TWO_64: int := 0x1_0000_0000_0000_0000

  /** The value a C `int` holds after any wider integer is stored into it. */
  function Int32(x: int): int {
    (x + TWO_31) % TWO_32 - TWO_31
  }
}
