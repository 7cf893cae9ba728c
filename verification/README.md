# KVM SGX driver binding, modelled in Dafny

KVM cannot link against the SGX driver: on a machine without SGX the driver
cannot be loaded, and a hard dependency would stop KVM from loading too.
`arch/x86/kvm/sgx.c` therefore binds to the driver's four exports
(`sgx_alloc_page`, `sgx_free_page`, `sgx_get_page`, `sgx_put_page`) at run
time with `symbol_get`, and gives them back with `symbol_put`. Every
successful `symbol_get` takes a reference on the driver module, which pins it
against unload. The binding is all or nothing: at the first export that is
missing, `get_sgx_driver_symbols` releases what it had found, empties the
table and fails with `-EFAULT`. `sgx_init` passes that result on, and
`sgx_destroy` releases the table. Four wrappers call the driver through
the table, and `sgx_epc_page_to_pfn` turns a page's physical address into a
page frame number.

The project has these modules:

- `SgxTypes` (`sgx_types.dfy`) holds the shared values:
  - the four exports;
  - lookup handles;
  - EPC pages, with a `u64` physical address;
  - the allocator's NULL / ERR_PTR / page result;
  - `EFAULT` and `PAGE_SHIFT`.
- `SymbolRegistry` (`symbol_registry.dfy`) is the kernel's symbol facility. The class `Registry` has:
  - the set of exports the loaded driver provides;
  - the driver module's reference count;
  - a ghost log of every `symbol_get` / `symbol_put`.

  The functions `Taken`, `Dropped` and `NetRefs` count references per export over a log. `Net` gives the change to the module count.
- `SgxDriver` (`sgx_driver.dfy`) models the driver's exports as seen from KVM. Their replies are arbitrary, and a ghost log records every call with its arguments.
- `ResolverSpec` (`resolver_spec.dfy`) is the specification as values:
  - `ResolverTrace(present)` is the exact sequence of calls the resolver makes;
  - `ResolvedSlots(present)` is the table it leaves;
  - `ReleaseTrace(t)` is the calls the release makes on table `t`.

  Lemmas about these functions cover lookup order, all-or-nothing binding and the absence of leaked references.
- `KvmSgx` (`kvm_sgx.dfy`):
  - the class `SgxDriverSymbols` is the global `sgx_driver_symbols` struct, with one mutable slot per export;
  - its methods are `get_sgx_driver_symbols`, `put_sgx_driver_symbols`, `sgx_init`, `sgx_destroy` and the four wrappers;
  - each state-changing method is proved against the specification functions above;
  - the module also holds the pure page-frame computation.

## Model

| member | source | states |
|---|---|---|
| `SymbolRegistry.Registry.constructor` | arch/x86/kvm/sgx.c:41-45 | The symbol facility starts with a given set of exports, a given module count and an empty call log. |
| `SymbolRegistry.Registry.SymbolGet` | arch/x86/kvm/sgx.c:111 | The lookup returns a handle to the export exactly when the driver provides it, and NULL otherwise. The call is logged, and the module count rises by one exactly when the export was found. |
| `SymbolRegistry.Registry.SymbolPut` | arch/x86/kvm/sgx.c:134 | The release needs a held reference. It logs the call and lowers the module count by one. |
| `SymbolRegistry.CountsAppend` | arch/x86/kvm/sgx.c:109-143 | The references taken and given back through an export add up over consecutive call sequences. |
| `SymbolRegistry.NetAppend` | arch/x86/kvm/sgx.c:109-143 | The change to the module count adds up over consecutive call sequences. |
| `SymbolRegistry.NetIsSumOfExports` | arch/x86/kvm/sgx.c:109-143 | The change to the module count is the sum of the per-export balances of the four exports. |
| `SgxDriver.Driver.constructor` | arch/x86/kvm/sgx.c:47-60 | The driver starts having received no call. |
| `SgxDriver.Driver.AllocPage` | arch/x86/kvm/sgx.c:48 | The allocator export receives the flags, and its reply is recorded with them. |
| `SgxDriver.Driver.FreePage` | arch/x86/kvm/sgx.c:53 | The free export receives a page and an optional enclave, and the call is recorded. |
| `SgxDriver.Driver.GetPage` | arch/x86/kvm/sgx.c:58 | The map export receives a page, and the address it returns is recorded. |
| `SgxDriver.Driver.PutPage` | arch/x86/kvm/sgx.c:59 | The unmap export receives an address, and the call is recorded. |
| `ResolverSpec.BoundCount` | arch/x86/kvm/sgx.c:47-60 | A table holds at most four references, one per slot. |
| `ResolverSpec.ResolvedPrefix` | arch/x86/kvm/sgx.c:111-122 | Every export before the resolver's stopping point is present. The export at the stopping point, if any, is missing. |
| `ResolverSpec.Attempts` | arch/x86/kvm/sgx.c:111-122 | The resolver makes at most four lookups. |
| `ResolverSpec.ResolvesAllIffSupported` | arch/x86/kvm/sgx.c:111-124 | The resolver gets past all four lookups if and only if the driver exports all four symbols. |
| `ResolverSpec.LookedUpAppend` | arch/x86/kvm/sgx.c:109-143 | The lookups of a concatenation are the lookups of each part, in order. |
| `ResolverSpec.LookedUpLookups` | arch/x86/kvm/sgx.c:111-122 | A run of lookups looks up exactly the names given, in order. |
| `ResolverSpec.LookedUpReleases` | arch/x86/kvm/sgx.c:131-141 | A run of releases looks nothing up. |
| `ResolverSpec.LookupOrderRespected` | arch/x86/kvm/sgx.c:111-122 | The resolver looks up alloc, free, get and put in that order. It stops at the first missing export, and that export is the last one looked up. |
| `ResolverSpec.NothingLookedUpAfterMiss` | arch/x86/kvm/sgx.c:111-122 | No export after the first missing one is ever looked up. |
| `ResolverSpec.CountsOfDistinct` | arch/x86/kvm/sgx.c:111-141 | Over names without repetition, a run of lookups or releases touches each named export exactly once and every other export never. |
| `ResolverSpec.ResolverKeepsOnePerExport` | arch/x86/kvm/sgx.c:111-124 | When all exports are present, the resolver takes one reference through each export and gives none back. |
| `ResolverSpec.ResolverRollsBack` | arch/x86/kvm/sgx.c:111-128 | When an export is missing, the resolver gives back exactly the references it took: one through each export found before the miss, none through the others. |
| `ResolverSpec.ResolverNoLeak` | arch/x86/kvm/sgx.c:109-129 | The resolver's net references through each export are one on success and zero on failure. |
| `ResolverSpec.SlotReleaseCounts` | arch/x86/kvm/sgx.c:133-140 | Releasing one slot puts its export once if the slot is bound and otherwise makes no call. |
| `ResolverSpec.ReleaseTraceOnce` | arch/x86/kvm/sgx.c:131-143 | The release puts each export exactly once if its slot is bound, never otherwise, and takes nothing. |
| `ResolverSpec.ReleaseLooksNothingUp` | arch/x86/kvm/sgx.c:131-143 | The release makes no lookup. |
| `ResolverSpec.ReleaseUnboundIsSilent` | arch/x86/kvm/sgx.c:131-143 | Releasing an empty table makes no call, so a second release is harmless. |
| `ResolverSpec.ResolverTraceCases` | arch/x86/kvm/sgx.c:109-129 | The resolver produces exactly five call sequences, one for each position of the first missing export and one for success. Each one is written out. |
| `ResolverSpec.AllocMissingTrace` | arch/x86/kvm/sgx.c:111-113 | A missing alloc export gives one failed lookup followed by the release of an empty table. |
| `ResolverSpec.FreeMissingTrace` | arch/x86/kvm/sgx.c:114-116 | A missing free export gives two lookups and the release of a table with only alloc bound. |
| `ResolverSpec.GetMissingTrace` | arch/x86/kvm/sgx.c:117-119 | A missing get export gives three lookups and the release of a table with alloc and free bound. |
| `ResolverSpec.PutMissingTrace` | arch/x86/kvm/sgx.c:120-122 | A missing put export gives four lookups and the release of the three earlier slots. |
| `ResolverSpec.AllFoundTrace` | arch/x86/kvm/sgx.c:111-124 | With every export present, the resolver makes just the four successful lookups. |
| `ResolverSpec.ResolveThenReleaseBalanced` | arch/x86/kvm/sgx.c:145-163 | Binding and then releasing the table it leaves gives every reference back, whether or not binding succeeded. |
| `ResolverSpec.ResolverNet` | arch/x86/kvm/sgx.c:109-129 | The resolver raises the driver module's count by four on success and leaves it unchanged on failure. |
| `ResolverSpec.ReleaseNet` | arch/x86/kvm/sgx.c:131-143 | The release lowers the driver module's count by the number of bound slots. |
| `KvmSgx.EpcPageOrNull` | arch/x86/kvm/sgx.c:77-78 | The allocator's reply becomes "no page" if and only if it is NULL or an ERR_PTR error. Otherwise it is the page the driver returned. |
| `KvmSgx.ShiftRightBounds` | arch/x86/kvm/sgx.c:104 | Shifting right by s bits rounds down to the multiple of 2^s at or below the value. |
| `KvmSgx.PageShiftIsDivision` | arch/x86/kvm/sgx.c:104 | Shifting right by PAGE_SHIFT is floor division by the page size. |
| `KvmSgx.SgxEpcPageToPfn` | arch/x86/kvm/sgx.c:102-105 | The page frame number is the physical address divided by 4096, rounded down, and fits a u64. |
| `KvmSgx.SgxDriverSymbols.constructor` | arch/x86/kvm/sgx.c:62-67 | The table starts with every slot NULL. |
| `KvmSgx.SgxDriverSymbols.GetSgxDriverSymbols` | arch/x86/kvm/sgx.c:109-129 | The resolver returns 0 if and only if all four exports are present, and -EFAULT otherwise. On success the table is fully bound; on failure it is empty. The calls made are exactly `ResolverTrace`, and the module count rises by four on success and is unchanged on failure. |
| `KvmSgx.SgxDriverSymbols.PutSgxDriverSymbols` | arch/x86/kvm/sgx.c:131-143 | The release puts once per non-NULL slot, in slot order, and empties the table. The module count drops by the number of bound slots. |
| `KvmSgx.SgxDriverSymbols.ReleaseSlot` | arch/x86/kvm/sgx.c:133-140 | One non-NULL slot gives one put; a NULL slot gives no call. |
| `KvmSgx.SgxDriverSymbols.SgxInit` | arch/x86/kvm/sgx.c:145-158 | `sgx_init` returns the resolver's result unchanged, with the same table, calls and count. |
| `KvmSgx.SgxDriverSymbols.SgxDestroy` | arch/x86/kvm/sgx.c:160-163 | Teardown empties the table and gives back the references it held. On an already empty table it changes nothing, so it is idempotent. |
| `KvmSgx.SgxDriverSymbols.SgxAllocEpcPage` | arch/x86/kvm/sgx.c:69-79 | Allocation needs a bound alloc slot. It makes one driver call with the caller's flags and returns the reply normalised by `EpcPageOrNull`. |
| `KvmSgx.SgxDriverSymbols.SgxFreeEpcPage` | arch/x86/kvm/sgx.c:81-86 | Freeing needs a bound free slot. It makes one driver call with the page and a NULL enclave. |
| `KvmSgx.SgxDriverSymbols.SgxKmapEpcPage` | arch/x86/kvm/sgx.c:88-93 | Mapping needs a bound get slot. It makes one driver call and returns the address the driver gave. |
| `KvmSgx.SgxDriverSymbols.SgxKunmapEpcPage` | arch/x86/kvm/sgx.c:95-100 | Unmapping needs a bound put slot. It makes one driver call with the caller's address. |

## Left out

- Kernel logging is left out: `sgx_debug`, `sgx_info` and `sgx_err` are `printk` calls with no effect on state or result.
- `BUG_ON` in the wrappers is modelled as a precondition, so a call through a NULL slot is excluded rather than modelled as a kernel crash.
- The module count is a single reference count for the SGX driver module. The kernel's loader, module unloading and exports built into the kernel (which take no reference) are not modelled.
- The driver's page policy is left out. The replies of `sgx_alloc_page`, `sgx_free_page` and `sgx_get_page` are arbitrary values, and the status of `sgx_free_page` is discarded, as the wrapper discards it.
- The ERR_PTR encoding is not modelled. An ERR_PTR reply is the abstract `AllocErr(errno)`, and `IS_ERR_OR_NULL` is the test for `AllocNull` or `AllocErr`.
- Concurrency is left out. The global table is one object, and calls on it are sequential.
- `EFAULT` (14) and `PAGE_SHIFT` (12 on x86) come from kernel headers that are not part of this model. `arch/x86/kvm/sgx.h` only declares `sgx_init` and `sgx_destroy`.
- KvmSgx.SgxDriverSymbols.GetSgxDriverSymbols: requires an empty table. The source has no guard against a second call on a bound table, which would take four more references. The model does not describe that call.
- KvmSgx.SgxDriverSymbols.SgxInit: requires an empty table, for the same reason.
- The `goto error` in `get_sgx_driver_symbols` is rendered as a call to the release at each failing lookup, followed by a return of `-EFAULT`.
- Function pointers are not modelled. A slot holds a handle naming its export, and a wrapper calls the `Driver` method for that export.
- SymbolRegistry.Registry.SymbolGet: does not model reference-count overflow or a module that is going away, which makes the real lookup fail.
- SymbolRegistry.Registry.SymbolPut: does not model reference-count overflow.
