/**
 * KVM's binding to the SGX driver (arch/x86/kvm/sgx.c): the table of the
 * driver's four exports, the resolver that fills it all at once or not at
 * all, the release that empties it, and the wrappers that call through it.
 */
module KvmSgx {
  import opened SgxTypes
  import opened SymbolRegistry
  import opened SgxDriver
  import opened ResolverSpec

  /**
   * sgx_alloc_epc_page's normalisation: the driver signals failure either
   * with NULL or with an ERR_PTR value, and both become "no page".
   */
  function EpcPageOrNull(reply: AllocResult): (epg: Option<EpcPage>)
    ensures epg == None <==> reply == AllocNull || reply.AllocErr?
    ensures epg.Some? ==> reply == AllocPage(epg.value)
  {
    if reply.AllocNull? || reply.AllocErr? then None else Some(reply.page)
  }

  /** 2 to the power `s`. */
  function Pow2(s: nat): (p: nat)
    ensures p >= 1
  {
    if s == 0 then 1 else 2 * Pow2(s - 1)
  }

  /** An unsigned right shift by `s` bits: `s` halvings, each dropping the lowest bit. */
  function ShiftRight(x: nat, s: nat): nat
  {
    if s == 0 then x else ShiftRight(x / 2, s - 1)
  }

  lemma Twice(p: nat, q: nat)
    ensures (2 * p) * q == 2 * (p * q)
  {
  }

  /** Shifting right by `s` bits rounds down to a multiple of 2^s: it is floor division by 2^s. */
  lemma {:induction false} ShiftRightBounds(x: nat, s: nat)
    ensures Pow2(s) * ShiftRight(x, s) <= x < Pow2(s) * (ShiftRight(x, s) + 1)
  {
    if s > 0 {
      ShiftRightBounds(x / 2, s - 1);
      Twice(Pow2(s - 1), ShiftRight(x / 2, s - 1));
      Twice(Pow2(s - 1), ShiftRight(x / 2, s - 1) + 1);
    }
  }

  /** Shifting by PAGE_SHIFT is division by the page size. */
  lemma PageShiftIsDivision(x: nat)
    ensures ShiftRight(x, PageShift) == x / PageSize
  {
    ShiftRightBounds(x, PageShift);
    assert Pow2(PageShift) == PageSize;
  }

  /** sgx_epc_page_to_pfn: the page frame number of an EPC page. It reads no binding state. */
  function SgxEpcPageToPfn(epg: EpcPage): (pfn: u64)
    ensures pfn as int == epg.pa as int / PageSize
  {
    PageShiftIsDivision(epg.pa as int);
    ShiftRight(epg.pa as int, PageShift) as u64
  }

  /** The global sgx_driver_symbols table: one slot per driver export, None standing for NULL. */
  class SgxDriverSymbols {
    /** The symbol facility the exports are looked up in. */
    const registry: Registry
    /** The driver module whose exports the slots refer to. */
    const driver: Driver

    var allocEpcPage: Option<Handle>
    var freeEpcPage: Option<Handle>
    var getEpcPage: Option<Handle>
    var putEpcPage: Option<Handle>

    function Value(): Slots
      reads this
    {
      Slots(allocEpcPage, freeEpcPage, getEpcPage, putEpcPage)
    }

    /** Each bound slot refers to its own export and holds a reference on the driver module. */
    ghost predicate Consistent()
      reads this, registry
    {
      OwnHandles(Value()) && registry.refcnt >= BoundCount(Value())
    }

    /** Outside the resolver the table is either fully bound or fully empty. */
    ghost predicate Valid()
      reads this, registry
    {
      Consistent() && (Value() == Unbound || Value() == FullyBound)
    }

    /** The static initialiser: every slot NULL. */
    constructor (registry: Registry, driver: Driver)
      ensures Valid() && Value() == Unbound
      ensures this.registry == registry && this.driver == driver
    {
      this.registry := registry;
      this.driver := driver;
      allocEpcPage, freeEpcPage, getEpcPage, putEpcPage := None, None, None, None;
    }

    /**
     * get_sgx_driver_symbols: look the four exports up in LookupOrder; at
     * the first one missing, release what was found and fail with -EFAULT.
     * The source has no guard against being called on a bound table, so
     * the table must be empty.
     */
    method GetSgxDriverSymbols() returns (r: int)
      requires Valid() && Value() == Unbound
      modifies this, registry
      ensures Valid()
      ensures r == 0 <==> Supported(registry.present)
      ensures r == 0 || r == -EFAULT
      ensures Value() == ResolvedSlots(registry.present)
      ensures registry.log == old(registry.log) + ResolverTrace(registry.present)
      ensures registry.refcnt == old(registry.refcnt) + (if r == 0 then |LookupOrder| else 0)
    {
      ghost var log0 := registry.log;
      allocEpcPage := registry.SymbolGet(SgxAllocPage);
      if allocEpcPage.None? {
        PutSgxDriverSymbols();
        AllocMissingTrace(log0, registry.present);
        return -EFAULT;
      }
      freeEpcPage := registry.SymbolGet(SgxFreePage);
      if freeEpcPage.None? {
        PutSgxDriverSymbols();
        FreeMissingTrace(log0, registry.present);
        return -EFAULT;
      }
      getEpcPage := registry.SymbolGet(SgxGetPage);
      if getEpcPage.None? {
        PutSgxDriverSymbols();
        GetMissingTrace(log0, registry.present);
        return -EFAULT;
      }
      putEpcPage := registry.SymbolGet(SgxPutPage);
      if putEpcPage.None? {
        PutSgxDriverSymbols();
        PutMissingTrace(log0, registry.present);
        return -EFAULT;
      }
      AllFoundTrace(log0, registry.present);
      return 0;
    }

    /**
     * put_sgx_driver_symbols: one symbol_put per non-NULL slot, then the
     * whole table is cleared.
     */
    method PutSgxDriverSymbols()
      requires Consistent()
      modifies this, registry
      ensures Valid() && Value() == Unbound
      ensures registry.log == old(registry.log) + ReleaseTrace(old(Value()))
      ensures registry.refcnt == old(registry.refcnt) - BoundCount(old(Value()))
    {
      ghost var t := Value();
      ghost var log0 := registry.log;
      ReleaseSlot(allocEpcPage, SgxAllocPage);
      ReleaseSlot(freeEpcPage, SgxFreePage);
      ReleaseSlot(getEpcPage, SgxGetPage);
      ReleaseSlot(putEpcPage, SgxPutPage);
      AppendAssociates(log0, SlotRelease(t.allocEpcPage.Some?, SgxAllocPage), SlotRelease(t.freeEpcPage.Some?, SgxFreePage),
        SlotRelease(t.getEpcPage.Some?, SgxGetPage), SlotRelease(t.putEpcPage.Some?, SgxPutPage));
      // memset of the whole table
      allocEpcPage, freeEpcPage, getEpcPage, putEpcPage := None, None, None, None;
    }

    /** One step of put_sgx_driver_symbols: symbol_put(n) when `slot` is non-NULL. */
    method ReleaseSlot(slot: Option<Handle>, n: Symbol)
      requires slot.Some? ==> registry.refcnt > 0
      modifies registry
      ensures registry.log == old(registry.log) + SlotRelease(slot.Some?, n)
      ensures registry.refcnt == old(registry.refcnt) - (if slot.Some? then 1 else 0)
    {
      if slot.Some? {
        registry.SymbolPut(n);
      }
    }

    /** sgx_init: the resolver's result, passed on unchanged. */
    method SgxInit() returns (r: int)
      requires Valid() && Value() == Unbound
      modifies this, registry
      ensures Valid()
      ensures r == 0 <==> Supported(registry.present)
      ensures r == 0 || r == -EFAULT
      ensures Value() == ResolvedSlots(registry.present)
      ensures registry.log == old(registry.log) + ResolverTrace(registry.present)
      ensures registry.refcnt == old(registry.refcnt) + (if r == 0 then |LookupOrder| else 0)
    {
      r := GetSgxDriverSymbols();
      if r != 0 {
        return r;
      }
      return 0;
    }

    /** sgx_destroy: release the table; on an empty table nothing changes. */
    method SgxDestroy()
      requires Valid()
      modifies this, registry
      ensures Valid() && Value() == Unbound
      ensures registry.log == old(registry.log) + ReleaseTrace(old(Value()))
      ensures registry.refcnt == old(registry.refcnt) - BoundCount(old(Value()))
      ensures old(Value()) == Unbound ==> registry.log == old(registry.log) && registry.refcnt == old(registry.refcnt)
    {
      PutSgxDriverSymbols();
      ReleaseUnboundIsSilent();
    }

    /** sgx_alloc_epc_page: allocate through the bound export; NULL and ERR_PTR both give no page. */
    method SgxAllocEpcPage(flags: bv32) returns (epg: Option<EpcPage>, ghost reply: AllocResult)
      requires allocEpcPage.Some?
      modifies driver
      ensures driver.calls == old(driver.calls) + [AllocCall(flags, reply)]
      ensures epg == EpcPageOrNull(reply)
    {
      var raw := driver.AllocPage(flags);
      reply := raw;
      epg := EpcPageOrNull(raw);
    }

    /** sgx_free_epc_page: free through the bound export, always naming no enclave. */
    method SgxFreeEpcPage(epg: EpcPage)
      requires freeEpcPage.Some?
      modifies driver
      ensures driver.calls == old(driver.calls) + [FreeCall(epg, None)]
    {
      var _ := driver.FreePage(epg, None);
    }

    /** sgx_kmap_epc_page: the address the bound export maps the page at. */
    method SgxKmapEpcPage(epg: EpcPage) returns (addr: Addr)
      requires getEpcPage.Some?
      modifies driver
      ensures driver.calls == old(driver.calls) + [GetCall(epg, addr)]
    {
      addr := driver.GetPage(epg);
    }

    /** sgx_kunmap_epc_page: unmap through the bound export. */
    method SgxKunmapEpcPage(addr: Addr)
      requires putEpcPage.Some?
      modifies driver
      ensures driver.calls == old(driver.calls) + [PutCall(addr)]
    {
      driver.PutPage(addr);
    }
  }

  /**
   * A client of the binding: with every export present, bind, use each
   * wrapper once, release, and bind again; every pin taken is given back.
   */
  method BindUseRelease()
  {
    var registry := new Registry(AllSymbols, 0);
    var driver := new Driver();
    var symbols := new SgxDriverSymbols(registry, driver);
    var r := symbols.SgxInit();
    assert r == 0;
    var epg, _ := symbols.SgxAllocEpcPage(0);
    if epg.Some? {
      var addr := symbols.SgxKmapEpcPage(epg.value);
      symbols.SgxKunmapEpcPage(addr);
      symbols.SgxFreeEpcPage(epg.value);
    }
    symbols.SgxDestroy();
    assert registry.refcnt == 0;
    symbols.SgxDestroy();
    r := symbols.SgxInit();
    assert r == 0 && symbols.Value() == FullyBound;
  }
}
