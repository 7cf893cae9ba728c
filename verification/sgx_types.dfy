/**
 * Values shared by the KVM SGX binder model: the four driver exports KVM
 * binds to, the handles symbol lookup hands out, EPC pages and the raw
 * result convention of the driver's page allocator.
 */
module SgxTypes {

  datatype Option<T> = None | Some(value: T)

  /** The exports of the SGX driver that KVM looks up at run time. */
  datatype Symbol = SgxAllocPage | SgxFreePage | SgxGetPage | SgxPutPage

  const AllSymbols: set<Symbol> := {SgxAllocPage, SgxFreePage, SgxGetPage, SgxPutPage}

  /** What a successful symbol lookup returns: a reference to the named export. */
  datatype Handle = Handle(symbol: Symbol)

  /** The kernel's u64. */
  newtype u64 = x: int | 0 <= x < 0x1_0000_0000_0000_0000

  /** An EPC page as the driver hands it out; only its physical address is visible here. */
  datatype EpcPage = EpcPage(pa: u64)

  /** The enclave a page belongs to, as the driver's free routine names it. */
  datatype Enclave = Enclave(id: nat)

  /** A kernel virtual address returned by the driver's map routine. */
  type Addr = bv64

  /**
   * The driver's allocator returns a page pointer that is either NULL, an
   * ERR_PTR-encoded error code, or a real page.
   */
  datatype AllocResult = AllocNull | AllocErr(errno: int) | AllocPage(page: EpcPage)

  /** EFAULT from the kernel's generic errno table. */
  const EFAULT: int := 14

  /** PAGE_SHIFT and the page size on x86. */
  const PageShift: nat := 12
  const PageSize: nat := 4096
}
