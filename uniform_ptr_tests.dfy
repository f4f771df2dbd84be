/** Clients of the handle: the expectations of the repository's unit tests, and the
    aliasing guarantees stated for arbitrary handles, proved from the handle's
    contracts alone. */
module UniformPtrTests {
  import opened PointerTypes
  import opened Pointers
  import opened Uniform

  /** The test hierarchy: an abstract `IntValue` and two final classes derived from
      it, one move-only and one copy-only; the copy and move restrictions are
      compile-time matters and do not appear here. */
  const IntValue: Type := Named("IntValue")
  const IntNonCopyable: Type := Derived("IntNonCopyable", IntValue)
  const IntNonMovable: Type := Derived("IntNonMovable", IntValue)

  const Char: Type := Named("char")
  const Bool: Type := Named("bool")
  const Int: Type := Named("int")
  const LongLong: Type := Named("long long")

  /** Default- and `nullptr`-constructed handles all hold a null pointer. */
  method EmptyHandlesHoldNull() returns (nulls: seq<bool>)
    ensures nulls == [true, true, true, true]
  {
    var c := new UniformPtr<char>.Null(Char);
    var i := new UniformPtr<int>.Null(IntValue);
    var m := new UniformPtr<int>.Null(IntNonMovable);
    var n := new UniformPtr<int>.Null(IntNonCopyable);
    nulls := [c.Get().addr == null, i.Get().addr == null, m.Get().addr == null, n.Get().addr == null];
  }

  /** Null tests: empty handles test false, a handle holding `false` tests true. */
  method BoolCast() returns (tests: seq<bool>)
    ensures tests == [false, false, true, false, false, false]
  {
    var i := new UniformPtr<int>.Null(Int);
    var c := new UniformPtr<char>.Null(Char);
    var b := new UniformPtr<bool>.FromValue(Bool, Bool, false);
    var v := new UniformPtr<int>.Null(IntValue);
    var m := new UniformPtr<int>.Null(IntNonMovable);
    var n := new UniformPtr<int>.Null(IntNonCopyable);
    tests := [i.IsNonEmpty(), c.IsNonEmpty(), b.IsNonEmpty(), v.IsNonEmpty(), m.IsNonEmpty(), n.IsNonEmpty()];
  }

  /** Handles built from constant lvalues dereference to copies of them, also when
      a derived object is stored behind a base-typed handle. */
  method ConstRefCtor() returns (a: char, t: bool, v: int, n4: int, n6: int)
    ensures a == 'A' && t && v == 3 && n4 == 4 && n6 == 6
  {
    var ha := new UniformPtr<char>.FromValue(Char, Char, 'A');
    a := ha.Deref();
    var ht := new UniformPtr<bool>.FromValue(Bool, Bool, true);
    t := ht.Deref();
    var hv := new UniformPtr<int>.FromValue(LongLong, LongLong, 3);
    v := hv.Deref();
    var h4 := new UniformPtr<int>.FromValue(IntNonMovable, IntNonMovable, 4);
    n4 := h4.Arrow().addr.value;
    var h6 := new UniformPtr<int>.FromValue(IntValue, IntNonMovable, 6);
    n6 := h6.Arrow().addr.value;
  }

  /** Moved and copied values, a borrowed local, and derived objects behind the
      base type. */
  method ValuesAndPointers() returns (one: int, copied: int, borrowed: int, aliasesB: bool, three: int, seven: int, five: int)
    ensures one == 1 && copied == 2 && borrowed == 2 && aliasesB && three == 3
    ensures seven == 7 && five == 5
  {
    var h1 := new UniformPtr<int>.FromValue(Int, Int, 1);
    one := h1.Deref();
    var b := new Cell<int>(Int, 2);
    var hc := new UniformPtr<int>.FromValue(Int, Int, b.value);
    copied := hc.Deref();
    var hb := new UniformPtr<int>.FromPointer(Int, RawPtr(Int, b));
    borrowed := hb.Deref();
    aliasesB := hb.Get().addr == b;
    var h3 := new UniformPtr<int>.FromValue(Int, Int, 3);
    three := h3.Deref();
    var h7 := new UniformPtr<int>.FromValue(IntNonCopyable, IntNonCopyable, 7);
    seven := h7.Arrow().addr.value;
    var h5 := new UniformPtr<int>.FromValue(IntValue, IntNonCopyable, 5);
    five := h5.Arrow().addr.value;
  }

  /** A value handle and its copy share one cell: a write through either is seen
      through the other. */
  method CopySharesOwnedValue() returns (seen: int)
    ensures seen == 14
  {
    var a := new UniformPtr<int>.FromValue(Int, Int, 12);
    var b := new UniformPtr<int>.Copy(a);
    a.WriteThrough(14);
    seen := b.Deref();
  }

  /** A borrowed local written through one handle is seen through its copy and in
      the local itself. */
  method CopySharesBorrowed() returns (seen: int, local: int)
    ensures seen == 18 && local == 18
  {
    var i := new Cell<int>(Int, 17);
    var a := new UniformPtr<int>.FromPointer(Int, RawPtr(Int, i));
    var b := new UniformPtr<int>.Copy(a);
    a.WriteThrough(18);
    seen := b.Deref();
    local := i.value;
  }

  /** Move construction hands the referent over. */
  method MoveKeepsReferent() returns (v: int)
    ensures v == 5
  {
    var a := new UniformPtr<int>.FromValue(Int, Int, 5);
    var b := new UniformPtr<int>.Move(a);
    v := b.Deref();
  }

  /** A `unique_ptr` to a derived object, promoted and then converted to a base
      handle: the object's identity and value survive, and the `unique_ptr` is
      emptied. */
  method CovariantFromUnique() returns (same: bool, v: int, released: bool)
    ensures same && v == 5 && released
  {
    var up := new UniquePtr<int>.Make(IntNonCopyable, 5);
    var obj := up.addr;
    var d := new UniformPtr<int>.FromUnique(IntNonCopyable, up);
    var base := new UniformPtr<int>.Convert(IntValue, d);
    same := base.Get().addr == d.Get().addr && base.Get().addr == obj;
    v := base.Arrow().addr.value;
    released := up.addr == null;
  }

  /** A `shared_ptr` to a derived object, held by a base handle through a derived
      one, assigned across types. */
  method CovariantFromShared() returns (same: bool, v: int)
    ensures same && v == 9
  {
    var obj := new Cell<int>(IntNonMovable, 9);
    var d := new UniformPtr<int>.FromShared(IntNonMovable, SharedPtr(RawPtr(IntNonMovable, obj)));
    var base := new UniformPtr<int>.Null(IntValue);
    base.ConvertAssign(d);
    same := base.Get().addr == obj;
    v := base.Deref();
  }

  /** Self move assignment leaves the handle as it was. */
  method SelfMoveAssign() returns (v: int)
    ensures v == 5
  {
    var h := new UniformPtr<int>.FromValue(Int, Int, 5);
    h.MoveAssign(h);
    v := h.Deref();
  }

  /** A write through a copy of any non-empty handle is seen through the original. */
  method WriteVisibleThroughCopy<V>(a: UniformPtr<V>, v: V) returns (seen: V)
    requires a.Valid() && a.IsNonEmpty()
    modifies a.target
    ensures seen == v && a.Get() == old(a.Get())
  {
    var b := new UniformPtr<V>.Copy(a);
    b.WriteThrough(v);
    seen := a.Deref();
  }

  /** A converted handle keeps the pointer it was built from, even when the source
      handle is reassigned afterwards. */
  method ConversionIsASnapshot<V>(t: Type, src: UniformPtr<V>, other: UniformPtr<V>) returns (conv: UniformPtr<V>)
    requires src.Valid() && other.Valid() && other.elem == src.elem
    requires PtrConvertible(src.elem, t) && src.elem != t
    modifies src
    ensures conv.Valid() && conv.Get().addr == old(src.Get().addr)
    ensures src.Valid() && src.Get() == old(other.Get())
  {
    conv := new UniformPtr<V>.Convert(t, src);
    src.CopyAssign(other);
  }

  /** A handle over a derived type converted to its base's base keeps its pointer:
      the upcasts compose. */
  method ConversionChain<V>(mid: Type, t: Type, h: UniformPtr<V>) returns (top: UniformPtr<V>)
    requires h.Valid()
    requires PtrConvertible(h.elem, mid) && h.elem != mid
    requires PtrConvertible(mid, t) && mid != t
    ensures top.Valid() && top.elem == t && top.mode == h.mode
    ensures top.Get().addr == h.Get().addr
  {
    var m := new UniformPtr<V>.Convert(mid, h);
    top := new UniformPtr<V>.Convert(t, m);
  }
}
