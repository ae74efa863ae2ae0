/** Reference counting of `struct nf_conntrack` in
    include/linux/netfilter/nf_conntrack_common_api.h. */
module ConntrackCommon {
  import opened Arith

  /** `struct nf_conntrack`: the `atomic_t use` count, and the number of
      times `nf_conntrack_destroy` has been called on it (the destructor is
      outside this header). */
  class NfConntrack {
    var use: Int32
    var destroyCalls: nat

    constructor (use0: Int32)
      ensures use == use0 && destroyCalls == 0
    {
      use := use0;
      destroyCalls := 0;
    }
  }

  /** The count after `atomic_inc(&nfct->use)`. */
  function Incremented(use: Int32): (r: Int32)
    ensures use < 0x7fff_ffff ==> r == use + 1
  {
    Wrap32(use + 1)
  }

  /** The count after `atomic_dec_and_test(&nfct->use)`, and its test: the
      new count is zero. */
  function Decremented(use: Int32): (r: (Int32, bool))
    ensures r.1 <==> r.0 == 0
    ensures use > -0x8000_0000 ==> r.0 == use - 1
  {
    var n := Wrap32(use - 1);
    (n, n == 0)
  }

  /** `nf_conntrack_get(nfct)`: takes a reference; a NULL pointer is ignored. */
  method NfConntrackGet(nfct: NfConntrack?)
    modifies nfct
    ensures nfct != null ==> nfct.use == Incremented(old(nfct.use))
    ensures nfct != null ==> nfct.destroyCalls == old(nfct.destroyCalls)
  {
    if nfct != null {
      nfct.use := Incremented(nfct.use);
    }
  }

  /** `nf_conntrack_put(nfct)`: drops a reference and destroys the object
      when it was the last one; a NULL pointer is ignored. */
  method NfConntrackPut(nfct: NfConntrack?)
    modifies nfct
    ensures nfct != null ==> nfct.use == Decremented(old(nfct.use)).0
    ensures nfct != null ==>
              nfct.destroyCalls == old(nfct.destroyCalls) + (if Decremented(old(nfct.use)).1 then 1 else 0)
  {
    if nfct != null {
      var (n, zero) := Decremented(nfct.use);
      nfct.use := n;
      if zero {
        nfct.destroyCalls := nfct.destroyCalls + 1;
      }
    }
  }

  /** A put destroys exactly when it drops the last reference. */
  lemma PutDestroysAtZero(use: Int32)
    requires use > -0x8000_0000
    ensures Decremented(use).1 <==> use == 1
  {
  }

  /** From a live object (`use >= 1`), a get followed by a put gives back the
      count and does not destroy. */
  lemma GetThenPutBalanced(use: Int32)
    requires 1 <= use < 0x7fff_ffff
    ensures Decremented(Incremented(use)).0 == use
    ensures !Decremented(Incremented(use)).1
  {
  }
}
