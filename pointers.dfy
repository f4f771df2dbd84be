/** The storage a handle can refer to: heap objects, raw pointers, and the two
    standard smart pointers the handle accepts. Only what the handle observes of
    them is modelled: the address they hold. */
module Pointers {
  import opened PointerTypes

  /** A live object: its most-derived type, fixed at allocation, and its value. */
  class Cell<V> {
    const dynType: Type
    var value: V

    constructor (dynType: Type, value: V)
      ensures this.dynType == dynType && this.value == value
    {
      this.dynType := dynType;
      this.value := value;
    }
  }

  /** A raw pointer `U*`: its static pointee type `U` and the address it holds. */
  datatype RawPtr<V> = RawPtr(pointee: Type, addr: Cell?<V>) {
    /** The object pointed at, if any, is a `U` (the language's typing guarantee). */
    predicate WellTyped()
    {
      addr != null ==> PtrConvertible(addr.dynType, pointee)
    }
  }

  /** The implicit conversion of `U*` to `T*`: the address is kept, only the static
      type widens, and a well-typed pointer stays well-typed. */
  function Upcast<V>(p: RawPtr<V>, t: Type): (q: RawPtr<V>)
    requires PtrConvertible(p.pointee, t)
    ensures q.addr == p.addr && q.pointee == t
    ensures p.WellTyped() ==> q.WellTyped()
  {
    assert p.WellTyped() ==> RawPtr(t, p.addr).WellTyped() by {
      if p.addr != null && PtrConvertible(p.addr.dynType, p.pointee) {
        ConvertibleTransitive(p.addr.dynType, p.pointee, t);
      }
    }
    RawPtr(t, p.addr)
  }

  /** `std::shared_ptr<U>`, seen through `get()`; its control block is not modelled. */
  datatype SharedPtr<V> = SharedPtr(ptr: RawPtr<V>)

  /** `std::unique_ptr<U>`: an object, because moving it out empties it. */
  class UniquePtr<V> {
    const pointee: Type
    var addr: Cell?<V>

    ghost predicate Valid()
      reads this
    {
      addr != null ==> PtrConvertible(addr.dynType, pointee)
    }

    /** `std::make_unique<U>(v)`: owns a freshly allocated `U`. */
    constructor Make(u: Type, v: V)
      ensures Valid() && pointee == u
      ensures addr != null && fresh(addr) && addr.dynType == u && addr.value == v
    {
      pointee := u;
      addr := new Cell(u, v);
    }

    /** `get()`. */
    function Get(): (p: RawPtr<V>)
      reads this
      requires Valid()
      ensures p.pointee == pointee && p.WellTyped()
    {
      RawPtr(pointee, addr)
    }
  }
}
