/**
 * The class factory the surrogate registers under the session's private
 * CLSID. It keeps a ULONG reference count, deletes itself when a release
 * brings the count to zero, answers QueryInterface for IUnknown and
 * IClassFactory, and forwards every non-aggregating activation to the real
 * DOF COM object.
 */
module ClassFactory {
  import opened ComTypes

  const ULONG_LIMIT: nat := 0x1_0000_0000

  /** An unsigned 32-bit count. */
  type ULong = x: nat | x < ULONG_LIMIT

  /** InterlockedIncrement on a ULONG. */
  function Increment(n: ULong): (r: ULong)
    ensures n < ULONG_LIMIT - 1 ==> r == n + 1
    ensures n == ULONG_LIMIT - 1 ==> r == 0
  {
    (n + 1) % ULONG_LIMIT
  }

  /** InterlockedDecrement on a ULONG. */
  function Decrement(n: ULong): (r: ULong)
    ensures n > 0 ==> r == n - 1
    ensures n == 0 ==> r == ULONG_LIMIT - 1
  {
    (n + ULONG_LIMIT - 1) % ULONG_LIMIT
  }

  /** A lock followed by an unlock (or the reverse) restores the count, including across the wrap-around. */
  lemma LockUnlockRestoresCount(n: ULong)
    ensures Decrement(Increment(n)) == n
    ensures Increment(Decrement(n)) == n
  {
  }

  /** The interfaces QueryInterface hands out. */
  predicate SupportedInterface(riid: Guid) {
    riid == IID_IUnknown || riid == IID_IClassFactory
  }

  /** The one activation CreateInstance asks the platform for. */
  datatype CoCreateRequest = CoCreateRequest(clsid: Guid, outer: bool, context: nat, iid: Guid)

  /** CoCreateInstance for the DOF object: in-process, no outer object, the DOF interface. */
  const DOF_REQUEST := CoCreateRequest(CLSID_DirectOutputComObject, false, CLSCTX_INPROC_SERVER, IID_Dof)

  /** What the platform's CoCreateInstance gives back: a status and the value written to *ppv. */
  datatype Activation = Activation(hr: HResult, ppv: object?)

  class CFactory {
    /** The session's private proxy CLSID the factory is created for. */
    const clsidProxyClass: Guid

    var refcnt: ULong

    /** Set by `delete this` once a release brings the count to zero. */
    var deleted: bool

    /** A fresh factory holds one reference, its creator's. */
    constructor (clsidProxyClass: Guid)
      ensures this.clsidProxyClass == clsidProxyClass
      ensures refcnt == 1 && !deleted
    {
      this.clsidProxyClass := clsidProxyClass;
      refcnt := 1;
      deleted := false;
    }

    /** Adds a reference and returns the new count. */
    method AddRef() returns (r: ULong)
      requires !deleted
      modifies this
      ensures refcnt == Increment(old(refcnt)) && r == refcnt
      ensures !deleted
    {
      refcnt := Increment(refcnt);
      r := refcnt;
    }

    /** Drops a reference, returns the new count, and deletes the object exactly when it is zero. */
    method Release() returns (r: ULong)
      requires !deleted
      modifies this
      ensures refcnt == Decrement(old(refcnt)) && r == refcnt
      ensures deleted <==> r == 0
    {
      refcnt := Decrement(refcnt);
      r := refcnt;
      if r == 0 {
        deleted := true;
      }
    }

    /**
     * IUnknown and IClassFactory: S_OK, *ppv set to this factory, one more
     * reference. Anything else: E_NOINTERFACE, *ppv and the count untouched.
     */
    method QueryInterface(riid: Guid, ppvIn: object?) returns (hr: HResult, ppv: object?)
      requires !deleted
      modifies this
      ensures !deleted
      ensures SupportedInterface(riid) ==> hr == S_OK && ppv == this && refcnt == Increment(old(refcnt))
      ensures !SupportedInterface(riid) ==> hr == E_NOINTERFACE && ppv == ppvIn && refcnt == old(refcnt)
    {
      if riid == IID_IUnknown {
        var _ := AddRef();
        return S_OK, this;
      }
      if riid == IID_IClassFactory {
        var _ := AddRef();
        return S_OK, this;
      }
      return E_NOINTERFACE, ppvIn;
    }

    /**
     * Refuses aggregation without attempting any activation; otherwise makes
     * exactly one request, for the DOF object and the DOF interface, and
     * passes its status and object back as they are. `coCreate` stands for
     * the platform's CoCreateInstance; the requested `iid` plays no part.
     */
    method CreateInstance(punkOuter: object?, iid: Guid, ppvIn: object?,
                          coCreate: CoCreateRequest -> Activation)
      returns (hr: HResult, ppv: object?, requests: seq<CoCreateRequest>)
      requires !deleted
      ensures punkOuter != null ==> hr == CLASS_E_NOAGGREGATION && ppv == ppvIn && requests == []
      ensures punkOuter == null ==> requests == [DOF_REQUEST]
      ensures punkOuter == null ==> hr == coCreate(DOF_REQUEST).hr && ppv == coCreate(DOF_REQUEST).ppv
    {
      if punkOuter != null {
        return CLASS_E_NOAGGREGATION, ppvIn, [];
      }
      var result := coCreate(DOF_REQUEST);
      return result.hr, result.ppv, [DOF_REQUEST];
    }

    /** Locking adds a reference and unlocking releases one; both always report S_OK. */
    method LockServer(fLock: bool) returns (hr: HResult)
      requires !deleted
      modifies this
      ensures hr == S_OK
      ensures fLock ==> refcnt == Increment(old(refcnt)) && !deleted
      ensures !fLock ==> refcnt == Decrement(old(refcnt)) && (deleted <==> refcnt == 0)
    {
      if fLock {
        var _ := AddRef();
      } else {
        var _ := Release();
      }
      return S_OK;
    }
  }
}
