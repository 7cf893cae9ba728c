/**
 * The SGX driver's four exports, seen from the outside. Their policy
 * (which page is handed out, when mapping fails) belongs to the driver and
 * is not modelled: each reply is arbitrary. A ghost log records every call
 * the driver receives, with its arguments and its reply.
 */
module SgxDriver {
  import opened SgxTypes

  datatype DriverCall =
    | AllocCall(flags: bv32, reply: AllocResult)
    | FreeCall(page: EpcPage, encl: Option<Enclave>)
    | GetCall(page: EpcPage, addr: Addr)
    | PutCall(addr: Addr)

  class Driver {
    ghost var calls: seq<DriverCall>

    constructor ()
      ensures calls == []
    {
      calls := [];
    }

    /** sgx_alloc_page */
    method AllocPage(flags: bv32) returns (r: AllocResult)
      modifies this
      ensures calls == old(calls) + [AllocCall(flags, r)]
    {
      r :| true;
      calls := calls + [AllocCall(flags, r)];
    }

    /** sgx_free_page; its status is the driver's own business. */
    method FreePage(page: EpcPage, encl: Option<Enclave>) returns (status: int)
      modifies this
      ensures calls == old(calls) + [FreeCall(page, encl)]
    {
      status :| true;
      calls := calls + [FreeCall(page, encl)];
    }

    /** sgx_get_page: map the page and return its kernel virtual address. */
    method GetPage(page: EpcPage) returns (addr: Addr)
      modifies this
      ensures calls == old(calls) + [GetCall(page, addr)]
    {
      addr :| true;
      calls := calls + [GetCall(page, addr)];
    }

    /** sgx_put_page: unmap an address returned by GetPage. */
    method PutPage(addr: Addr)
      modifies this
      ensures calls == old(calls) + [PutCall(addr)]
    {
      calls := calls + [PutCall(addr)];
    }
  }
}
