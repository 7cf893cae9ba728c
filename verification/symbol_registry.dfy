/**
 * The kernel's run-time symbol facility as KVM sees it: symbol_get looks an
 * export of the SGX driver module up by name and, when it is found, takes a
 * reference on that module; symbol_put gives one such reference back. Every
 * call is recorded in a ghost log so that the order of lookups and the
 * balance of gets and puts per export can be stated.
 */
module SymbolRegistry {
  import opened SgxTypes

  /** One call into the symbol facility: a lookup (and whether it found the export) or a release. */
  datatype Event = Lookup(symbol: Symbol, found: bool) | Release(symbol: Symbol)

  /** The number of references the events in `trace` took through export `n`. */
  function Taken(trace: seq<Event>, n: Symbol): nat
  {
    if trace == [] then 0
    else (if trace[0] == Lookup(n, true) then 1 else 0) + Taken(trace[1..], n)
  }

  /** The number of references the events in `trace` gave back through export `n`. */
  function Dropped(trace: seq<Event>, n: Symbol): nat
  {
    if trace == [] then 0
    else (if trace[0] == Release(n) then 1 else 0) + Dropped(trace[1..], n)
  }

  /** The net number of references a trace holds through export `n`. */
  function NetRefs(trace: seq<Event>, n: Symbol): int
  {
    Taken(trace, n) - Dropped(trace, n)
  }

  /** The change one call makes to the module's reference count. */
  function Delta(e: Event): int
  {
    match e
    case Lookup(_, found) => if found then 1 else 0
    case Release(_) => -1
  }

  /** The change the calls in `trace` make to the module's reference count. */
  function Net(trace: seq<Event>): int
  {
    if trace == [] then 0 else Delta(trace[0]) + Net(trace[1..])
  }

  /** Counting is additive over the concatenation of two traces. */
  lemma {:induction false} CountsAppend(a: seq<Event>, b: seq<Event>, n: Symbol)
    ensures Taken(a + b, n) == Taken(a, n) + Taken(b, n)
    ensures Dropped(a + b, n) == Dropped(a, n) + Dropped(b, n)
  {
    if a != [] {
      assert (a + b)[1..] == a[1..] + b;
      CountsAppend(a[1..], b, n);
    } else {
      assert a + b == b;
    }
  }

  /** The module count's change is additive over the concatenation of two traces. */
  lemma {:induction false} NetAppend(a: seq<Event>, b: seq<Event>)
    ensures Net(a + b) == Net(a) + Net(b)
  {
    if a != [] {
      assert (a + b)[1..] == a[1..] + b;
      NetAppend(a[1..], b);
    } else {
      assert a + b == b;
    }
  }

  /**
   * The module count moves by the sum of the per-export balances: every
   * reference is taken and given back through one of the four exports.
   */
  lemma {:induction false} NetIsSumOfExports(trace: seq<Event>)
    ensures Net(trace) == NetRefs(trace, SgxAllocPage) + NetRefs(trace, SgxFreePage)
                          + NetRefs(trace, SgxGetPage) + NetRefs(trace, SgxPutPage)
  {
    if trace != [] {
      NetIsSumOfExports(trace[1..]);
      match trace[0].symbol
      case SgxAllocPage =>
      case SgxFreePage =>
      case SgxGetPage =>
      case SgxPutPage =>
    }
  }

  class Registry {
    /** The exports the loaded SGX driver provides (none when it is not loaded). */
    const present: set<Symbol>
    /** The reference count of the SGX driver module; it never goes below zero. */
    var refcnt: nat
    /** Every symbol_get and symbol_put made so far, in order. */
    ghost var log: seq<Event>

    constructor (present: set<Symbol>, refcnt: nat)
      ensures this.present == present && this.refcnt == refcnt && log == []
    {
      this.present := present;
      this.refcnt := refcnt;
      this.log := [];
    }

    /**
     * symbol_get: a handle to `n` and one more reference on the module, or
     * nothing when `n` is not exported; the count moves by the logged call's Delta.
     */
    method SymbolGet(n: Symbol) returns (h: Option<Handle>)
      modifies this
      ensures h == (if n in present then Some(Handle(n)) else None)
      ensures log == old(log) + [Lookup(n, n in present)]
      ensures refcnt == old(refcnt) + Delta(Lookup(n, n in present))
    {
      log := log + [Lookup(n, n in present)];
      if n in present {
        refcnt := refcnt + 1;
        h := Some(Handle(n));
      } else {
        h := None;
      }
    }

    /** symbol_put: give back one reference on the module, which the caller must hold. */
    method SymbolPut(n: Symbol)
      requires refcnt > 0
      modifies this
      ensures log == old(log) + [Release(n)]
      ensures refcnt == old(refcnt) + Delta(Release(n))
    {
      log := log + [Release(n)];
      refcnt := refcnt - 1;
    }
  }
}
