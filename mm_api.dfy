/** Page-private data, the TLB-flush-pending counter and page alignment of
    include/linux/mm_api.h. */
module MmApi {
  import opened Arith

  // ---- struct page ----

  /** `struct page`, reduced to the two words the helpers here and in the
      KASAN tag header touch. */
  class Page {
    var flags: ULong
    var private: ULong

    constructor (flags0: ULong, private0: ULong)
      ensures flags == flags0 && private == private0
    {
      flags := flags0;
      private := private0;
    }
  }

  /** `page_private(page)`. */
  function PagePrivate(page: Page): (v: ULong)
    reads page
    ensures v == page.private
  {
    page.private
  }

  /** `set_page_private(page, private)`: writes that one field. */
  method SetPagePrivate(page: Page, private: ULong)
    modifies page`private
    ensures PagePrivate(page) == private
    ensures page.flags == old(page.flags)
  {
    page.private := private;
  }

  // ---- mm_struct.tlb_flush_pending ----

  /** There is a flush pending: `atomic_read(&mm->tlb_flush_pending)` taken as a bool. */
  predicate FlushPending(counter: Int32)
  {
    counter != 0
  }

  /** More than one flush is pending at the same time. */
  predicate FlushNested(counter: Int32)
  {
    counter > 1
  }

  /** `struct mm_struct`, reduced to the `atomic_t tlb_flush_pending` counter;
      the atomic operations are modelled one at a time, wrapping in 32 bits. */
  class MmStruct {
    var tlbFlushPending: Int32

    constructor (counter: Int32)
      ensures tlbFlushPending == counter
    {
      tlbFlushPending := counter;
    }

    /** `init_tlb_flush_pending`. */
    method InitTlbFlushPending()
      modifies this
      ensures tlbFlushPending == 0
      ensures !Pending() && !Nested()
    {
      tlbFlushPending := 0;
    }

    /** `inc_tlb_flush_pending`: `atomic_inc`. */
    method IncTlbFlushPending()
      modifies this
      ensures tlbFlushPending == Wrap32(old(tlbFlushPending) + 1)
    {
      tlbFlushPending := Wrap32(tlbFlushPending + 1);
    }

    /** `dec_tlb_flush_pending`: `atomic_dec`. */
    method DecTlbFlushPending()
      modifies this
      ensures tlbFlushPending == Wrap32(old(tlbFlushPending) - 1)
    {
      tlbFlushPending := Wrap32(tlbFlushPending - 1);
    }

    /** `mm_tlb_flush_pending`. */
    predicate Pending()
      reads this
    {
      FlushPending(tlbFlushPending)
    }

    /** `mm_tlb_flush_nested`. */
    predicate Nested()
      reads this
    {
      FlushNested(tlbFlushPending)
    }
  }

  /** An increment followed by a decrement, or a decrement followed by an
      increment, gives back the counter, wrap-around included. */
  lemma IncDecRestores(counter: Int32)
    ensures Wrap32(Wrap32(counter + 1) - 1) == counter
    ensures Wrap32(Wrap32(counter - 1) + 1) == counter
  {
    if counter == 0x7fff_ffff {
      assert Wrap32(counter + 1) == -0x8000_0000;
    }
    if counter == -0x8000_0000 {
      assert Wrap32(counter - 1) == 0x7fff_ffff;
    }
  }

  /** Nested implies pending. */
  lemma NestedImpliesPending(counter: Int32)
    ensures FlushNested(counter) ==> FlushPending(counter)
  {
  }

  /** The counter after `k` calls of `inc_tlb_flush_pending` in a row, each
      the `IncTlbFlushPending` step applied to the one before. */
  function IncN(counter: Int32, k: nat): Int32
  {
    if k == 0 then counter else Wrap32(IncN(counter, k - 1) + 1)
  }

  /** Below the wrap-around, `k` increments from 0 count up to `k`. */
  lemma {:induction false} IncrementsFromZero(k: nat)
    requires k < 0x8000_0000
    ensures IncN(0, k) == k
  {
    if k > 0 {
      IncrementsFromZero(k - 1);
    }
  }

  /** Starting from no pending flush, `k` increments in a row (below the
      wrap-around) leave a flush pending exactly when `k >= 1` and nested
      exactly when `k >= 2`. */
  lemma PendingAfterIncrements(k: nat)
    requires k < 0x8000_0000
    ensures FlushPending(IncN(0, k)) <==> k >= 1
    ensures FlushNested(IncN(0, k)) <==> k >= 2
  {
    IncrementsFromZero(k);
  }

  /** An increment from a non-negative count below the maximum always leaves
      a flush pending. */
  lemma IncMakesPending(counter: Int32)
    requires 0 <= counter < 0x7fff_ffff
    ensures FlushPending(Wrap32(counter + 1))
    ensures FlushNested(Wrap32(counter + 1)) <==> FlushPending(counter)
  {
  }

  // ---- PAGE_ALIGN / PAGE_ALIGNED ----

  /** `PAGE_SHIFT`: defined by the architecture, so a parameter; `PAGE_SIZE`
      is `1UL << PAGE_SHIFT`. */
  type PageShift = s: nat | s < 64

  /** A page size fits in an `unsigned long`. */
  lemma PageSizeFits(shift: PageShift)
    ensures Pow2(shift) <= ULONG_LIMIT / 2
  {
    Pow2Monotone(shift, 63);
    Pow2SixtyThree();
  }

  /** `PAGE_ALIGN(addr)` = `ALIGN(addr, PAGE_SIZE)` on `unsigned long`:
      `(addr + PAGE_SIZE - 1) & ~(PAGE_SIZE - 1)`. The sum wraps modulo 2^64.
      The model states the mask step as rounding down to a multiple of
      `PAGE_SIZE`: for a power of two, clearing the low `PAGE_SHIFT` bits is
      that rounding. This equivalence is a modelling choice, not proved here. */
  function PageAlign(addr: ULong, shift: PageShift): ULong
  {
    var size := Pow2(shift);
    PageSizeFits(shift);
    RoundDown((addr + size - 1) % ULONG_LIMIT, size)
  }

  /** `PAGE_ALIGNED(addr)` = `IS_ALIGNED(addr, PAGE_SIZE)`:
      `(addr & (PAGE_SIZE - 1)) == 0`. The model states the mask test as a
      zero remainder modulo `PAGE_SIZE`, which is the same test for a power of
      two; this too is a modelling choice, not proved here. */
  predicate PageAligned(addr: ULong, shift: PageShift)
  {
    addr % Pow2(shift) == 0
  }

  /** Without wrap-around `PAGE_ALIGN(addr)` is the least multiple of the
      page size that is at least `addr`. */
  lemma PageAlignIsLeastMultiple(addr: ULong, shift: PageShift)
    requires addr + Pow2(shift) - 1 < ULONG_LIMIT
    ensures PageAligned(PageAlign(addr, shift), shift)
    ensures addr <= PageAlign(addr, shift) < addr + Pow2(shift)
  {
    var size := Pow2(shift);
    PageSizeFits(shift);
    var sum := addr + size - 1;
    DivModUnique(sum, ULONG_LIMIT, 0, sum);
    var r := RoundDown(sum, size);
    assert PageAlign(addr, shift) == r;
  }

  /** The last page-size minus one addresses wrap round to 0. */
  lemma PageAlignWraps(addr: ULong, shift: PageShift)
    requires addr + Pow2(shift) - 1 >= ULONG_LIMIT
    ensures PageAlign(addr, shift) == 0
  {
    var size := Pow2(shift);
    PageSizeFits(shift);
    var sum := addr + size - 1 - ULONG_LIMIT;
    DivModUnique(addr + size - 1, ULONG_LIMIT, 1, sum);
    var r := RoundDown(sum, size);
    DivModUnique(r, size, 0, r);
  }

  /** The last page of the address space starts at 2^64 - PAGE_SIZE. */
  lemma LastPageAligned(shift: PageShift)
    ensures (ULONG_LIMIT - Pow2(shift)) % Pow2(shift) == 0
  {
    Pow2SplitSixtyFour(shift);
    PreviousMultiple(Pow2(64 - shift), Pow2(shift));
  }

  /** An address within the last page-size minus one of the address space
      is not page aligned: the last aligned address is 2^64 - PAGE_SIZE. */
  lemma WrappingAddressIsUnaligned(addr: ULong, shift: PageShift)
    requires addr + Pow2(shift) - 1 >= ULONG_LIMIT
    ensures !PageAligned(addr, shift)
  {
    LastPageAligned(shift);
    if PageAligned(addr, shift) {
      MultiplesInWindow(ULONG_LIMIT - Pow2(shift), addr, Pow2(shift));
    }
  }

  /** `PAGE_ALIGN` leaves an address alone exactly when it is already aligned. */
  lemma PageAlignFixesAligned(addr: ULong, shift: PageShift)
    ensures PageAligned(addr, shift) <==> PageAlign(addr, shift) == addr
  {
    var size := Pow2(shift);
    if addr + size - 1 < ULONG_LIMIT {
      PageAlignIsLeastMultiple(addr, shift);
      if PageAligned(addr, shift) {
        MultiplesInWindow(addr, PageAlign(addr, shift), size);
      }
    } else {
      PageAlignWraps(addr, shift);
      WrappingAddressIsUnaligned(addr, shift);
    }
  }
}
