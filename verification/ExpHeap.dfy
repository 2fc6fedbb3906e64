/** The two searches of the expandable heap for a free block.

    Addresses and sizes are natural numbers; the callers' promise that no sum wraps is `NoWrap`.
 */
module ExpHeap {
  import opened Wrappers
  import Arithmetic

  const HEADER: nat := 32
  const MIN_ALIGNMENT: int := 4
  const GRANULARITY: nat := 4
  const SIZE_MAX: nat := 0xffff_ffff_ffff_ffff

  datatype Block = Block(address: nat, size: nat)

  /** Rounding up to a multiple.  For powers of two `AlignUpIsMask` shows that it is what the bit mask
      computes. */
  function AlignUp(value: nat, align: nat): (r: nat)
    requires 0 < align
    ensures r % align == 0 && value <= r < value + align
  {
    AlignUpFacts(value, align);
    (value + align - 1) - (value + align - 1) % align
  }

  lemma AlignUpFacts(value: nat, align: nat)
    requires 0 < align
    ensures var r := (value + align - 1) - (value + align - 1) % align; r % align == 0 && value <= r < value + align
  {
    var x := value + align - 1;
    assert x - x % align == x / align * align;
    NoRemainder(x / align, align);
  }

  lemma NoRemainder(q: nat, a: nat)
    requires 0 < a
    ensures q * a % a == 0
  {
    var x := q * a;
    var d := q - x / a;
    assert d * a == x % a by { assert x == x / a * a + x % a; }
    Arithmetic.MulMono(1, d, a);
    Arithmetic.MulMono(d, -1, a);
  }

  // The mask.

  function Pow2(k: nat): (r: nat)
    ensures 0 < r
  {
    if k == 0 then 1 else 2 * Pow2(k - 1)
  }

  /** The bitwise and of two numbers. */
  function BitAnd(x: nat, y: nat): nat {
    if x == 0 || y == 0 then 0 else 2 * BitAnd(x / 2, y / 2) + if x % 2 == 1 && y % 2 == 1 then 1 else 0
  }

  /** The bitwise complement of a `width`-bit number. */
  function BitNot(width: nat, x: nat): nat
    requires x < Pow2(width)
  {
    Pow2(width) - 1 - x
  }

  lemma {:induction false} Pow2Mono(k: nat, n: nat)
    requires k <= n
    ensures Pow2(k) <= Pow2(n)
    decreases n
  {
    if k < n { Pow2Mono(k, n - 1); }
  }

  /** Halving keeps the remainder by a power of two in step. */
  lemma HalfRemainder(x: nat, p: nat)
    requires 0 < p
    ensures x % (2 * p) == 2 * (x / 2 % p) + x % 2
  {
    var q, r := x / 2 / p, x / 2 % p;
    assert x / 2 == p * q + r;
    assert x == 2 * p * q + (2 * r + x % 2);
    RemainderUnique(2 * p, q, 2 * r + x % 2);
  }

  lemma RemainderUnique(m: nat, q: nat, r: nat)
    requires r < m
    ensures (m * q + r) % m == r
  {
    var x := m * q + r;
    var d := q - x / m;
    assert d * m == x % m - r by { assert x == m * (x / m) + x % m; }
    Arithmetic.MulMono(1, d, m);
    Arithmetic.MulMono(d, -1, m);
  }

  lemma AndUnfold(x: nat, y: nat)
    ensures x == 0 || y == 0 ==> BitAnd(x, y) == 0
    ensures x % 2 == 1 && y % 2 == 1 ==> BitAnd(x, y) == 2 * BitAnd(x / 2, y / 2) + 1
    ensures x != 0 && y != 0 && (x % 2 == 0 || y % 2 == 0) ==> BitAnd(x, y) == 2 * BitAnd(x / 2, y / 2)
  {
  }

  lemma AndStep(x: nat, y: nat)
    ensures BitAnd(x, 2 * y) == 2 * BitAnd(x / 2, y)
    ensures BitAnd(x, 2 * y + 1) == 2 * BitAnd(x / 2, y) + x % 2
  {
    hide BitAnd;
    AndUnfold(x, 2 * y);
    AndUnfold(x, 2 * y + 1);
    AndUnfold(x / 2, y);
  }

  /** The number with its low `k` bits cleared. */
  function Cleared(x: nat, k: nat): nat {
    if k == 0 then x else 2 * Cleared(x / 2, k - 1)
  }

  lemma {:induction false} ClearedValue(x: nat, k: nat)
    ensures Cleared(x, k) == x - x % Pow2(k)
  {
    if k != 0 {
      ClearedValue(x / 2, k - 1);
      HalfRemainder(x, Pow2(k - 1));
    }
  }

  /** Masking with the complement of `2^k - 1` clears the low `k` bits. */
  lemma {:induction false} MaskClears(width: nat, k: nat, x: nat)
    requires k <= width && x < Pow2(width)
    ensures Pow2(k) <= Pow2(width) && BitAnd(x, Pow2(width) - Pow2(k)) == Cleared(x, k)
  {
    Pow2Mono(k, width);
    if width != 0 {
      var half := if k == 0 then Pow2(width - 1) - 1 else Pow2(width - 1) - Pow2(k - 1);
      MaskClears(width - 1, if k == 0 then 0 else k - 1, x / 2);
      AndStep(x, half);
      hide BitAnd;
      assert Pow2(width) - Pow2(k) == if k == 0 then 2 * half + 1 else 2 * half;
      hide Pow2;
    }
  }

  /** For every power of two that is a 64-bit number, rounding up without wrapping is adding
      `align - 1` and masking with its complement. */
  lemma AlignUpIsMask(value: nat, k: nat)
    requires k < 64 && value + Pow2(k) - 1 < Pow2(64)
    ensures Pow2(k) - 1 < Pow2(64) && AlignUp(value, Pow2(k)) == BitAnd(value + (Pow2(k) - 1), BitNot(64, Pow2(k) - 1))
  {
    hide Pow2, BitAnd;
    MaskClears(64, k, value + Pow2(k) - 1);
    ClearedValue(value + Pow2(k) - 1, k);
  }

  function AllocationAddress(b: Block, align: nat): nat
    requires 0 < align
  {
    AlignUp(b.address + HEADER, align)
  }

  /** The allocation, header and padding included, lies within the block. */
  predicate Fits(b: Block, size: nat, align: nat)
    requires 0 < align
  {
    AllocationAddress(b, align) + size - b.address <= b.size
  }

  /** A block fits exactly if there is an aligned address in it, behind the header, from which the whole
      size is inside. */
  lemma FitsIff(b: Block, size: nat, align: nat)
    requires 0 < align
    ensures Fits(b, size, align) <==>
            exists a: nat :: a % align == 0 && b.address + HEADER <= a && a + size <= b.address + b.size
  {
    if Fits(b, size, align) {
      var a := AllocationAddress(b, align);
      assert a % align == 0 && b.address + HEADER <= a && a + size <= b.address + b.size;
    }
    if a: nat :| a % align == 0 && b.address + HEADER <= a && a + size <= b.address + b.size {
      AlignUpLeast(b.address + HEADER, align, a);
    }
  }

  /** No smaller multiple will do. */
  lemma AlignUpLeast(value: nat, align: nat, a: nat)
    requires 0 < align && a % align == 0 && value <= a
    ensures AlignUp(value, align) <= a
  {
    var r := AlignUp(value, align);
    hide AlignUp;
    MultipleBefore(r, a, align);
  }

  /** Two multiples that are less than one step apart in the wrong order cannot be. */
  lemma MultipleBefore(r: nat, a: nat, align: nat)
    requires 0 < align && r % align == 0 && a % align == 0 && r < a + align
    ensures r <= a
  {
    var p, q := r / align, a / align;
    assert r == p * align;
    assert a == q * align;
    assert (q + 1) * align == q * align + align;
    Arithmetic.MulMono(q + 1, p, align);
  }

  ghost predicate NoWrap(blocks: seq<Block>, size: nat, align: nat)
    requires 0 < align
  {
    forall b | b in blocks :: 0 < b.address && b.address + b.size <= SIZE_MAX
        && AllocationAddress(b, align) + size <= SIZE_MAX
  }

  /** A block found, and where in it the allocation goes. */
  datatype Found = Found(index: nat, address: nat)

  /** The allocation is aligned and lies within its block, behind the header. */
  ghost predicate Chosen(blocks: seq<Block>, size: nat, align: nat, r: Found)
    requires 0 < align
  {
    && r.index < |blocks| && r.address % align == 0
    && var b := blocks[r.index];
       b.address + HEADER <= r.address < b.address + HEADER + align && r.address + size <= b.address + b.size
  }

  /** No block that fits has exactly the requested size. */
  lemma ExactSizeNeverFits(b: Block, size: nat, align: nat)
    requires 0 < align && Fits(b, size, align)
    ensures size + HEADER <= b.size
  {
  }

  method FirstFit(blocks: seq<Block>, size: nat, align: nat) returns (r: Option<Found>)
    requires 0 < align && NoWrap(blocks, size, align)
    ensures r == None <==> forall b | b in blocks :: !Fits(b, size, align)
    ensures r.Some? ==> Chosen(blocks, size, align, r.value) && Fits(blocks[r.value.index], size, align)
    ensures r.Some? ==> forall j | 0 <= j < r.value.index :: !Fits(blocks[j], size, align)
  {
    var i := 0;
    while i < |blocks|
      invariant 0 <= i <= |blocks|
      invariant forall j | 0 <= j < i :: !Fits(blocks[j], size, align)
    {
      var address := AllocationAddress(blocks[i], align);
      var alignedSize := address + size - blocks[i].address;
      if alignedSize <= blocks[i].size {
        assert blocks[i] in blocks;
        return Some(Found(i, address));
      }
      i := i + 1;
    }
    return None;
  }

  method BestFit(blocks: seq<Block>, size: nat, align: nat) returns (r: Option<Found>)
    requires 0 < align && NoWrap(blocks, size, align)
    ensures r == None <==> forall b | b in blocks :: !Fits(b, size, align)
    ensures r.Some? ==> Chosen(blocks, size, align, r.value) && Fits(blocks[r.value.index], size, align)
    ensures r.Some? ==> forall b | b in blocks && Fits(b, size, align) :: blocks[r.value.index].size <= b.size
    ensures r.Some?
            ==> forall j | 0 <= j < r.value.index && Fits(blocks[j], size, align) ::
                blocks[r.value.index].size < blocks[j].size
  {
    var smallerSize: nat, smallerAddress: nat, smallerBlock: nat := SIZE_MAX, 0, |blocks|;
    var i := 0;
    while i < |blocks|
      invariant 0 <= i <= |blocks|
      invariant smallerBlock == |blocks|
                ==> smallerSize == SIZE_MAX && forall j | 0 <= j < i :: !Fits(blocks[j], size, align)
      invariant smallerBlock != |blocks|
                ==> smallerBlock < i && Chosen(blocks, size, align, Found(smallerBlock, smallerAddress))
      invariant smallerBlock != |blocks|
                ==> smallerSize == blocks[smallerBlock].size && Fits(blocks[smallerBlock], size, align)
      invariant forall j | 0 <= j < i && Fits(blocks[j], size, align) :: smallerSize <= blocks[j].size
      invariant forall j | 0 <= j < smallerBlock && j < i && Fits(blocks[j], size, align) ::
                smallerSize < blocks[j].size
    {
      var b := blocks[i];
      assert b in blocks;
      var address := AllocationAddress(b, align);
      var alignedSize := address + size - b.address;
      if b.size < smallerSize && alignedSize <= b.size {
        ExactSizeNeverFits(b, size, align);
        smallerSize, smallerBlock, smallerAddress := b.size, i, address;
        if b.size == size {
          break;
        }
      }
      i := i + 1;
    }
    if smallerBlock == |blocks| {
      return None;
    }
    return Some(Found(smallerBlock, smallerAddress));
  }

  /** The search of `TryAllocate` with its limits on size and alignment.  Whether it succeeds does not
      depend on the mode. */
  method Search(blocks: seq<Block>, requested: nat, requestedAlign: int, firstFit: bool)
      returns (r: Option<Found>, size: nat, align: nat)
    requires NoWrap(blocks, AlignUp(requested, GRANULARITY), if requestedAlign < MIN_ALIGNMENT then MIN_ALIGNMENT
             else requestedAlign)
    ensures align == if requestedAlign < MIN_ALIGNMENT then MIN_ALIGNMENT else requestedAlign
    ensures MIN_ALIGNMENT <= align && requestedAlign <= align && requested <= size < requested + GRANULARITY
            && size % GRANULARITY == 0
    ensures r == None <==> forall b | b in blocks :: !Fits(b, size, align)
    ensures r.Some? ==> Chosen(blocks, size, align, r.value) && Fits(blocks[r.value.index], size, align)
    ensures r.Some? && firstFit ==> forall j | 0 <= j < r.value.index :: !Fits(blocks[j], size, align)
    ensures r.Some? && !firstFit
            ==> forall b | b in blocks && Fits(b, size, align) :: blocks[r.value.index].size <= b.size
    ensures r.Some? && !firstFit ==>
              forall j | 0 <= j < r.value.index && Fits(blocks[j], size, align) ::
                  blocks[r.value.index].size < blocks[j].size
  {
    align := if requestedAlign < MIN_ALIGNMENT then MIN_ALIGNMENT else requestedAlign;
    size := AlignUp(requested, GRANULARITY);
    if firstFit {
      r := FirstFit(blocks, size, align);
    } else {
      r := BestFit(blocks, size, align);
    }
  }
}
