/** Segment-descriptor packing and the vDSO CPU/node word of
    arch/x86/include/asm/segment_api.h.

    `GDT_ENTRY` builds the 8-byte code/data segment descriptor laid out in
    section 3.4.5 ("Segment Descriptors") of the Intel 64 and IA-32
    Architectures Software Developer's Manual, Volume 3A; all of its
    arithmetic is on `unsigned long long`. */
module SegmentApi {

  // ---- GDT_ENTRY ----

  /** `GDT_ENTRY(flags, base, limit)`. */
  function GdtEntry(flags: bv64, base: bv64, limit: bv64): (d: bv64)
  {
    ((base & 0xff00_0000) << 32)
    | ((flags & 0xf0ff) << 40)
    | ((limit & 0xf_0000) << 32)
    | ((base & 0xff_ffff) << 16)
    | (limit & 0xffff)
  }

  /** Where `GDT_ENTRY` puts each field: limit[15:0] in bits 15:0,
      base[23:0] in bits 39:16, flags[7:0] in bits 47:40, limit[19:16] in
      bits 51:48, flags[15:12] in bits 55:52 and base[31:24] in bits 63:56. */
  lemma GdtEntryLayout(flags: bv64, base: bv64, limit: bv64)
    ensures var d := GdtEntry(flags, base, limit);
      && d & 0xffff == limit & 0xffff
      && (d >> 16) & 0xff_ffff == base & 0xff_ffff
      && (d >> 40) & 0xff == flags & 0xff
      && (d >> 48) & 0xf == (limit >> 16) & 0xf
      && (d >> 52) & 0xf == (flags >> 12) & 0xf
      && d >> 56 == (base >> 24) & 0xff
  {
  }

  /** The 32-bit segment base a descriptor holds (bits 16-39 and 56-63). */
  function DescriptorBase(d: bv64): (base: bv64)
    ensures base <= 0xffff_ffff
  {
    ((d >> 56) << 24) | ((d >> 16) & 0xff_ffff)
  }

  /** The 20-bit segment limit a descriptor holds (bits 0-15 and 48-51). */
  function DescriptorLimit(d: bv64): (limit: bv64)
    ensures limit <= 0xf_ffff
  {
    (((d >> 48) & 0xf) << 16) | (d & 0xffff)
  }

  /** The attribute bits a descriptor holds, in `GDT_ENTRY`'s `flags` layout
      (type/S/DPL/P in bits 0-7, AVL/L/D/G in bits 12-15). */
  function DescriptorFlags(d: bv64): (flags: bv64)
    ensures flags & !0xf0ff == 0
  {
    (d >> 40) & 0xf0ff
  }

  /** The five shifted field masks of `GDT_ENTRY` are pairwise disjoint and
      together cover the whole descriptor. */
  lemma FieldMasksPartitionDescriptor()
    ensures var masks: seq<bv64> := [0xff00_0000 << 32, 0xf0ff << 40, 0xf_0000 << 32, 0xff_ffff << 16, 0xffff];
      && (forall i, j :: 0 <= i < j < |masks| ==> masks[i] & masks[j] == 0)
      && masks[0] | masks[1] | masks[2] | masks[3] | masks[4] == 0xffff_ffff_ffff_ffff
  {
    var masks: seq<bv64> := [0xff00_0000 << 32, 0xf0ff << 40, 0xf_0000 << 32, 0xff_ffff << 16, 0xffff];
    forall i, j | 0 <= i < j < |masks|
      ensures masks[i] & masks[j] == 0
    {
    }
  }

  /** The base (32 bits), limit (20 bits) and the masked flags come back out
      of the descriptor unchanged. */
  lemma GdtEntryRoundTrip(flags: bv64, base: bv64, limit: bv64)
    ensures DescriptorBase(GdtEntry(flags, base, limit)) == base & 0xffff_ffff
    ensures DescriptorLimit(GdtEntry(flags, base, limit)) == limit & 0xf_ffff
    ensures DescriptorFlags(GdtEntry(flags, base, limit)) == flags & 0xf0ff
  {
  }

  /** Every descriptor is `GDT_ENTRY` of its own fields: the packing is onto. */
  lemma DescriptorFieldsRoundTrip(d: bv64)
    ensures GdtEntry(DescriptorFlags(d), DescriptorBase(d), DescriptorLimit(d)) == d
  {
  }

  /** Flags bits 8-11, base bits above 31 and limit bits above 19 do not
      affect the descriptor. */
  lemma GdtEntryIgnoresBitsOutsideMasks(flags: bv64, base: bv64, limit: bv64)
    ensures GdtEntry(flags, base, limit) == GdtEntry(flags & 0xf0ff, base & 0xffff_ffff, limit & 0xf_ffff)
  {
  }

  // ---- vDSO CPU/node word ----

  /** `VDSO_CPUNODE_BITS`, the width of the CPU field (12 on x86-64). */
  const CPUNODE_BITS: bv64 := 12

  /** `VDSO_CPUNODE_MASK`. */
  const CPUNODE_MASK: bv64 := 0xfff

  /** The mask is the low `VDSO_CPUNODE_BITS` bits, as the decode relies on. */
  lemma CpunodeMaskIsLowBits()
    ensures CPUNODE_MASK == (1 << CPUNODE_BITS) - 1
  {
  }

  /** The bits of a C `int` (two's complement). */
  type Int32Bits = bv32

  /** The conversion of an `int` to `unsigned long`: sign extension. */
  function IntToULong(x: Int32Bits): bv64
  {
    ((x as bv64) ^ 0x8000_0000) - 0x8000_0000
  }

  /** The conversion keeps the low 32 bits and copies the sign bit into the
      high 32 bits. */
  lemma IntToULongSignExtends(x: Int32Bits)
    ensures && IntToULong(x) & 0xffff_ffff == x as bv64
            && (x < 0x8000_0000 ==> IntToULong(x) == x as bv64)
            && (x >= 0x8000_0000 ==> IntToULong(x) >> 32 == 0xffff_ffff)
  {
  }

  /** `vdso_encode_cpunode(cpu, node)`, computed on `unsigned long`. */
  function EncodeCpunode(cpu: Int32Bits, node: bv64): bv64
  {
    (node << CPUNODE_BITS) | IntToULong(cpu)
  }

  /** With a CPU number in `0..MASK`, the CPU sits in the low `BITS` bits of
      the encoded word and the node in the bits above. */
  lemma EncodeCpunodeLayout(cpu: Int32Bits, node: bv64)
    requires cpu <= CPUNODE_MASK as bv32
    ensures var w := EncodeCpunode(cpu, node);
      && w & CPUNODE_MASK == cpu as bv64
      && w >> CPUNODE_BITS == node & 0xf_ffff_ffff_ffff
  {
  }

  /** The `unsigned int` the CPU reads back as `p` (LSL on the per-CPU GDT
      entry, or RDPID): the low 32 bits of the encoded word. */
  function LowWord(w: bv64): (p: bv32)
    ensures p as bv64 == w & 0xffff_ffff
  {
    (w & 0xffff_ffff) as bv32
  }

  /** The CPU number `vdso_read_cpunode` stores: `p & VDSO_CPUNODE_MASK`. */
  function DecodeCpu(p: bv32): (cpu: bv32)
    ensures cpu <= 0xfff
  {
    ((p as bv64) & CPUNODE_MASK) as bv32
  }

  /** The node number `vdso_read_cpunode` stores: `p >> VDSO_CPUNODE_BITS`. */
  function DecodeNode(p: bv32): (node: bv32)
    ensures node < 0x10_0000
  {
    ((p as bv64) >> CPUNODE_BITS) as bv32
  }

  /** Encoding then decoding gives back the CPU and node numbers when the CPU
      is a non-negative number below `2^BITS` and the node fits in the rest of
      the 32-bit word. */
  lemma CpunodeRoundTrip(cpu: Int32Bits, node: bv64)
    requires cpu <= CPUNODE_MASK as bv32
    requires node < 0x10_0000
    ensures DecodeCpu(LowWord(EncodeCpunode(cpu, node))) == cpu
    ensures DecodeNode(LowWord(EncodeCpunode(cpu, node))) as bv64 == node
  {
  }

  /** Decoding then encoding gives back every word whose CPU field is the
      only content of the low bits: the decode loses nothing of `p`. */
  lemma CpunodeDecodeEncode(p: bv32)
    ensures LowWord(EncodeCpunode(DecodeCpu(p), DecodeNode(p) as bv64)) == p
  {
  }

  /** An `unsigned` object an out-pointer of `vdso_read_cpunode` designates. */
  class UIntCell {
    var value: bv32

    constructor (v: bv32)
      ensures value == v
    {
      value := v;
    }
  }

  /** The decode half of `vdso_read_cpunode`: `p` stands for the word the
      inline assembly loads. Only non-NULL out-pointers are written, the
      CPU first and the node second. */
  method ReadCpunode(p: bv32, cpu: UIntCell?, node: UIntCell?)
    modifies cpu, node
    ensures node != null ==> node.value == DecodeNode(p)
    ensures cpu != null && cpu != node ==> cpu.value == DecodeCpu(p)
  {
    if cpu != null {
      cpu.value := DecodeCpu(p);
    }
    if node != null {
      node.value := DecodeNode(p);
    }
  }
}
