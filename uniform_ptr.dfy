/** `uniform_ptr<T>`: a copyable handle that gives one access interface to a `T`
    however it is stored. Its only observable state is the pointer `get()` returns;
    every accessor the source builds returns a pointer captured when it was built,
    so the handle is modelled as that pointer (`target`, of static type `elem`),
    which only assignment replaces. The ownership discipline behind it is a ghost
    tag. */
module Uniform {
  import opened PointerTypes
  import opened Pointers

  /** How the referent's lifetime is managed; not observable through the handle. */
  datatype Mode =
    | Empty     // built from nothing or `nullptr`
    | Owned     // a fresh copy or moved-in value, in a new shared cell
    | Borrowed  // a raw pointer; the caller keeps ownership
    | Shared    // a `shared_ptr`, or a `unique_ptr` promoted to one

  class UniformPtr<V> {
    /** The element type `T`. */
    const elem: Type
    /** What `get()` returns. */
    var target: Cell?<V>
    ghost var mode: Mode

    ghost predicate Valid()
      reads this
    {
      (target != null ==> PtrConvertible(target.dynType, elem)) &&
      (mode == Empty ==> target == null) &&
      (mode == Owned ==> target != null)
    }

    /** `uniform_ptr(nullptr_t = nullptr)`: the default and the null constructor. */
    constructor Null(t: Type)
      ensures Valid() && elem == t && mode == Empty
      ensures Get().addr == null
    {
      elem := t;
      target := null;
      mode := Empty;
    }

    /** `uniform_ptr(const U&)` and `uniform_ptr(U&&)`: copies or moves the argument
        into a newly allocated cell, so the handle aliases nothing that existed. */
    constructor FromValue(t: Type, u: Type, v: V)
      requires PtrConvertible(u, t)
      ensures Valid() && elem == t && mode == Owned
      ensures target != null && fresh(target)
      ensures target.dynType == u && target.value == v
    {
      elem := t;
      target := new Cell(u, v);
      mode := Owned;
    }

    /** `uniform_ptr(U* const)`: keeps the caller's pointer, null included. */
    constructor FromPointer(t: Type, p: RawPtr<V>)
      requires p.WellTyped() && PtrConvertible(p.pointee, t)
      ensures Valid() && elem == t && mode == Borrowed
      ensures Get() == Upcast(p, t)
    {
      elem := t;
      target := Upcast(p, t).addr;
      mode := Borrowed;
    }

    /** `uniform_ptr(std::shared_ptr<U>)`: joins the shared cell's owners. */
    constructor FromShared(t: Type, s: SharedPtr<V>)
      requires s.ptr.WellTyped() && PtrConvertible(s.ptr.pointee, t)
      ensures Valid() && elem == t && mode == Shared
      ensures Get() == Upcast(s.ptr, t)
    {
      elem := t;
      target := Upcast(s.ptr, t).addr;
      mode := Shared;
    }

    /** `uniform_ptr(std::unique_ptr<U>)`: the exclusive owner is moved into a shared
        one, which leaves the caller's `unique_ptr` null. */
    constructor FromUnique(t: Type, up: UniquePtr<V>)
      requires up.Valid() && PtrConvertible(up.pointee, t)
      modifies up
      ensures Valid() && elem == t && mode == Shared
      ensures Get() == Upcast(old(up.Get()), t)
      ensures up.Valid() && up.addr == null
    {
      elem := t;
      target := Upcast(up.Get(), t).addr;
      mode := Shared;
      up.addr := null;
    }

    /** The defaulted copy constructor: shares the source's referent. */
    constructor Copy(rhv: UniformPtr<V>)
      requires rhv.Valid()
      ensures Valid() && elem == rhv.elem && mode == rhv.mode
      ensures Get() == rhv.Get()
    {
      elem := rhv.elem;
      target := rhv.target;
      mode := rhv.mode;
    }

    /** The move constructor: takes over the source's accessor. The source is left
        valid but unspecified. */
    constructor Move(rhv: UniformPtr<V>)
      requires rhv.Valid()
      modifies rhv
      ensures Valid() && elem == rhv.elem && mode == old(rhv.mode)
      ensures Get() == old(rhv.Get())
      ensures rhv.Valid()
    {
      elem := rhv.elem;
      target := rhv.target;
      mode := rhv.mode;
      rhv.target := null;
      rhv.mode := Empty;
    }

    /** `uniform_ptr(const uniform_ptr<U>&)` with `U` other than `T`: the result reads
        a copy of the source, so it keeps the source's pointer, upcast, and mode. */
    constructor Convert(t: Type, rhv: UniformPtr<V>)
      requires rhv.Valid() && PtrConvertible(rhv.elem, t) && rhv.elem != t
      ensures Valid() && elem == t && mode == rhv.mode
      ensures Get() == Upcast(rhv.Get(), t)
    {
      elem := t;
      target := Upcast(rhv.Get(), t).addr;
      mode := rhv.mode;
    }

    /** `uniform_ptr(uniform_ptr<U>&&)` with `U` other than `T`: as `Convert`, but the
        source is moved into the new accessor and left valid but unspecified. */
    constructor ConvertMove(t: Type, rhv: UniformPtr<V>)
      requires rhv.Valid() && PtrConvertible(rhv.elem, t) && rhv.elem != t
      modifies rhv
      ensures Valid() && elem == t && mode == old(rhv.mode)
      ensures Get() == Upcast(old(rhv.Get()), t)
      ensures rhv.Valid()
    {
      elem := t;
      target := Upcast(rhv.Get(), t).addr;
      mode := rhv.mode;
      rhv.target := null;
      rhv.mode := Empty;
    }

    /** The defaulted copy assignment; `h = h` keeps `h` as it was. */
    method CopyAssign(rhv: UniformPtr<V>)
      requires Valid() && rhv.Valid() && rhv.elem == elem
      modifies this
      ensures Valid() && mode == old(rhv.mode)
      ensures Get() == old(rhv.Get())
    {
      target := rhv.target;
      mode := rhv.mode;
    }

    /** Move assignment: a no-op when `rhv` is this very handle; otherwise takes
        over the source's accessor and leaves the source valid but unspecified. */
    method MoveAssign(rhv: UniformPtr<V>)
      requires Valid() && rhv.Valid() && rhv.elem == elem
      modifies this, rhv
      ensures Valid() && rhv.Valid()
      ensures Get() == old(rhv.Get()) && mode == old(rhv.mode)
      ensures rhv == this ==> Get() == old(Get()) && mode == old(mode)
    {
      if this != rhv {
        target := rhv.target;
        mode := rhv.mode;
        rhv.target := null;
        rhv.mode := Empty;
      }
    }

    /** `operator=(const uniform_ptr<U>&)` with `U` other than `T`. */
    method ConvertAssign(rhv: UniformPtr<V>)
      requires Valid() && rhv.Valid() && PtrConvertible(rhv.elem, elem) && rhv.elem != elem
      modifies this
      ensures Valid() && mode == old(rhv.mode)
      ensures Get() == Upcast(old(rhv.Get()), elem)
      ensures rhv.Valid() && rhv.Get() == old(rhv.Get())
    {
      target := Upcast(rhv.Get(), elem).addr;
      mode := rhv.mode;
    }

    /** `operator=(uniform_ptr<U>&&)` with `U` other than `T`; the source is left valid
        but unspecified. */
    method ConvertMoveAssign(rhv: UniformPtr<V>)
      requires Valid() && rhv.Valid() && PtrConvertible(rhv.elem, elem) && rhv.elem != elem
      modifies this, rhv
      ensures Valid() && rhv.Valid() && mode == old(rhv.mode)
      ensures Get() == Upcast(old(rhv.Get()), elem)
    {
      target := Upcast(rhv.Get(), elem).addr;
      mode := rhv.mode;
      rhv.target := null;
      rhv.mode := Empty;
    }

    /** `get()`: a `T*` to an object whose type converts to `T`, or null. */
    function Get(): (p: RawPtr<V>)
      reads this
      requires Valid()
      ensures p.pointee == elem && p.WellTyped()
    {
      RawPtr(elem, target)
    }

    /** `operator bool`: the pointer is non-null. That says nothing about the
        referent's value, so an owned handle tests true whatever it holds, and
        an empty one always tests false. */
    function IsNonEmpty(): (b: bool)
      reads this
      requires Valid()
      ensures b <==> Get().addr != null
      ensures mode == Owned ==> b
      ensures mode == Empty ==> !b
    {
      target != null
    }

    /** Reading `*h`: the value of the object `get()` points at; undefined when empty. */
    function Deref(): (v: V)
      reads this, target
      requires Valid() && IsNonEmpty()
      ensures v == Get().addr.value
    {
      target.value
    }

    /** `operator->`: the very pointer `get()` returns. */
    function Arrow(): (p: RawPtr<V>)
      reads this
      requires Valid()
      ensures p == Get()
    {
      Get()
    }

    /** Writing `*h = v`: changes the referent, never the handle. */
    method WriteThrough(v: V)
      requires Valid() && IsNonEmpty()
      modifies target
      ensures Valid() && Get() == old(Get()) && mode == old(mode)
      ensures Deref() == v
    {
      target.value := v;
    }
  }
}
