/** The KASAN per-page tag of include/linux/mm_api_kasan.h.

    With CONFIG_KASAN_SW_TAGS or CONFIG_KASAN_HW_TAGS the tag lives in an
    8-bit field of `page->flags` at bit `KASAN_TAG_PGSHIFT`, stored XOR 0xff
    so that a zeroed field reads as the native kernel tag 0xff. The word is
    modelled as an unbounded integer below 2^64: `(flags >> SHIFT) & 0xff`
    is `(flags / 2^SHIFT) % 256`, and XOR 0xff on a byte is `255 - byte`. */
module MmKasan {
  import opened Arith
  import MmApi

  /** `KASAN_TAG_PGSHIFT`: set by the page-flags layout, so a parameter; the
      code relies on the 8-bit field lying inside the 64-bit word. */
  type TagShift = s: nat | s <= 56

  /** `KASAN_TAG_KERNEL`, the native kernel tag. */
  const KASAN_TAG_KERNEL: U8 := 0xff

  /** `x ^ 0xff` on a `u8`. */
  function Flip(x: U8): (r: U8)
    ensures r + x == 255
  {
    255 - x
  }

  /** `a | b` on two `u8` values. */
  function OrByte(a: U8, b: U8): U8
  {
    ((a as bv8) | (b as bv8)) as U8
  }

  /** `flags >> KASAN_TAG_PGSHIFT`. */
  function Shifted(flags: ULong, s: TagShift): nat
  {
    DivIsNat(flags, Pow2(s));
    flags / Pow2(s)
  }

  /** The stored tag field: `(flags >> KASAN_TAG_PGSHIFT) & KASAN_TAG_MASK`. */
  function TagField(flags: ULong, s: TagShift): U8
  {
    Shifted(flags, s) % 256
  }

  /** The bits of `flags` below the tag field. */
  function LowBits(flags: ULong, s: TagShift): nat
  {
    flags % Pow2(s)
  }

  /** The bits of `flags` above the tag field. */
  function HighBits(flags: ULong, s: TagShift): nat
  {
    Shifted(flags, s) / 256
  }

  /** `flags >> s` is below 2^(64 - s). */
  lemma ShiftedBound(flags: ULong, s: TagShift)
    ensures Shifted(flags, s) < Pow2(64 - s)
  {
    var p, k := Pow2(s), Pow2(64 - s);
    Pow2Add(64 - s, s);
    Pow2SixtyFour();
    var q := Shifted(flags, s);
    assert q * p <= flags;
    if q >= k {
      MulMonotone(k, q, p);
    }
  }

  /** Replacing the field of the shifted word `q` by `g` keeps the word
      below 2^(64 - s). */
  lemma ReplacedShiftedBound(q: nat, s: TagShift, g: U8)
    requires q < Pow2(64 - s)
    ensures (q / 256) * 256 + g < Pow2(64 - s)
    ensures ((q / 256) * 256 + g) / 256 == q / 256
    ensures ((q / 256) * 256 + g) % 256 == g
  {
    Pow2Add(8, 56 - s);
    Pow2Eight();
    DivModUnique((q / 256) * 256 + g, 256, q / 256, g);
  }

  /** The word whose shifted part is `q` and whose bits below the field are
      `l` fits in 64 bits when `q` does in 64 - s, and takes apart again. */
  lemma ComposeWord(q: nat, l: nat, s: TagShift)
    requires q < Pow2(64 - s) && l < Pow2(s)
    ensures q * Pow2(s) + l < ULONG_LIMIT
    ensures (q * Pow2(s) + l) / Pow2(s) == q
    ensures (q * Pow2(s) + l) % Pow2(s) == l
  {
    var p := Pow2(s);
    MulMonotone(q + 1, Pow2(64 - s), p);
    Pow2SplitSixtyFour(s);
    assert (q + 1) * p == q * p + p;
    DivModUnique(q * p + l, p, q, l);
  }

  /** `flags` with its tag field replaced by `g`, everything else kept. */
  function ReplaceTagField(flags: ULong, s: TagShift, g: U8): (r: ULong)
    ensures TagField(r, s) == g
    ensures LowBits(r, s) == LowBits(flags, s)
    ensures HighBits(r, s) == HighBits(flags, s)
  {
    var q := Shifted(flags, s);
    var q' := (q / 256) * 256 + g;
    ShiftedBound(flags, s);
    ReplacedShiftedBound(q, s, g);
    ComposeWord(q', LowBits(flags, s), s);
    q' * Pow2(s) + LowBits(flags, s)
  }

  /** `flags & ~(KASAN_TAG_MASK << KASAN_TAG_PGSHIFT)`. */
  function ClearTagField(flags: ULong, s: TagShift): ULong
  {
    ReplaceTagField(flags, s, 0)
  }

  /** `flags | ((tag & KASAN_TAG_MASK) << KASAN_TAG_PGSHIFT)`: the tag is
      or-ed into the field and no other bit changes. */
  function OrTagField(flags: ULong, s: TagShift, tag: U8): ULong
  {
    ReplaceTagField(flags, s, OrByte(TagField(flags, s), tag))
  }

  /** The tag `page_kasan_tag` returns for a page whose flags are `flags`:
      `tags` is whether a tag-based KASAN mode is configured, `enabled` the
      value of `kasan_enabled()`. */
  function KasanTag(flags: ULong, s: TagShift, tags: bool, enabled: bool): U8
  {
    if tags && enabled then Flip(TagField(flags, s)) else KASAN_TAG_KERNEL
  }

  /** The flags `page_kasan_tag_set` leaves: the field cleared, then the
      flipped tag or-ed in; unchanged when tags are off. */
  function FlagsWithTag(flags: ULong, s: TagShift, tags: bool, enabled: bool, tag: U8): ULong
  {
    if tags && enabled then OrTagField(ClearTagField(flags, s), s, Flip(tag)) else flags
  }

  /** `page_kasan_tag(page)`. */
  function PageKasanTag(page: MmApi.Page, s: TagShift, tags: bool, enabled: bool): U8
    reads page
  {
    KasanTag(page.flags, s, tags, enabled)
  }

  /** `page_kasan_tag_set(page, tag)`. */
  method PageKasanTagSet(page: MmApi.Page, s: TagShift, tags: bool, enabled: bool, tag: U8)
    modifies page`flags
    ensures page.flags == FlagsWithTag(old(page.flags), s, tags, enabled, tag)
  {
    if tags && enabled {
      var t := Flip(tag);
      page.flags := ClearTagField(page.flags, s);
      page.flags := OrTagField(page.flags, s, t);
    }
  }

  /** `page_kasan_tag_reset(page)`: sets the native kernel tag. */
  method PageKasanTagReset(page: MmApi.Page, s: TagShift, tags: bool, enabled: bool)
    modifies page`flags
    ensures page.flags == FlagsWithTag(old(page.flags), s, tags, enabled, KASAN_TAG_KERNEL)
  {
    if tags && enabled {
      PageKasanTagSet(page, s, tags, enabled, KASAN_TAG_KERNEL);
    }
  }

  /** Or-ing a byte into a zero byte gives that byte. */
  lemma OrIntoZero(b: U8)
    ensures OrByte(0, b) == b
  {
  }

  /** With tags active, setting a tag and reading it back gives that tag. */
  lemma TagSetThenRead(flags: ULong, s: TagShift, enabled: bool, tag: U8)
    requires enabled
    ensures KasanTag(FlagsWithTag(flags, s, true, enabled, tag), s, true, enabled) == tag
  {
    OrIntoZero(Flip(tag));
  }

  /** Setting a tag changes only the tag field: the bits below and above it
      are those of the old flags. */
  lemma TagSetKeepsOtherBits(flags: ULong, s: TagShift, tags: bool, enabled: bool, tag: U8)
    ensures LowBits(FlagsWithTag(flags, s, tags, enabled, tag), s) == LowBits(flags, s)
    ensures HighBits(FlagsWithTag(flags, s, tags, enabled, tag), s) == HighBits(flags, s)
  {
  }

  /** A zero field reads as the kernel tag 0xff, and a reset leaves the
      field zero and the tag 0xff. */
  lemma ResetStoresZero(flags: ULong, s: TagShift, enabled: bool)
    requires enabled
    ensures TagField(flags, s) == 0 ==> KasanTag(flags, s, true, enabled) == KASAN_TAG_KERNEL
    ensures TagField(FlagsWithTag(flags, s, true, enabled, KASAN_TAG_KERNEL), s) == 0
    ensures KasanTag(FlagsWithTag(flags, s, true, enabled, KASAN_TAG_KERNEL), s, true, enabled) == KASAN_TAG_KERNEL
  {
    OrIntoZero(0);
  }

  /** With tags off (not configured, or disabled at boot) the tag always
      reads 0xff and set and reset leave the flags alone. */
  lemma TagsOffIsInert(flags: ULong, s: TagShift, tags: bool, enabled: bool, tag: U8)
    requires !(tags && enabled)
    ensures KasanTag(flags, s, tags, enabled) == KASAN_TAG_KERNEL
    ensures FlagsWithTag(flags, s, tags, enabled, tag) == flags
  {
  }
}
