/** Static types of the objects a handle can point at, and the implicit pointer
    conversion `U*` to `T*` that every constructor of the handle is guarded by.

    A type is a root (a fundamental type such as `int`, or a class without a base)
    or a class publicly derived from one base class. */
module PointerTypes {

  datatype Type = Named(name: string) | Derived(name: string, base: Type)

  /** `U*` converts implicitly to `T*`: `u` is `t` or derives from `t`, directly or
      through a chain of public bases. */
  predicate PtrConvertible(u: Type, t: Type)
  {
    u == t || (u.Derived? && PtrConvertible(u.base, t))
  }

  /** Number of classes from `u` up to its root, `u` included. */
  function Depth(u: Type): nat
  {
    if u.Named? then 1 else 1 + Depth(u.base)
  }

  /** The classes from `u` up to its root, most-derived first: an independent
      description of what `u*` converts to. */
  function Lineage(u: Type): (s: seq<Type>)
    ensures |s| == Depth(u) && s[0] == u
  {
    if u.Named? then [u] else [u] + Lineage(u.base)
  }

  /** A pointer converts to exactly the types of its lineage. */
  lemma {:induction false} ConvertibleIffInLineage(u: Type, t: Type)
    ensures PtrConvertible(u, t) <==> t in Lineage(u)
  {
    if u.Derived? {
      ConvertibleIffInLineage(u.base, t);
    }
  }

  /** Two implicit upcasts compose into one: a `V*` held behind a `U*` can be
      handed on as a `T*`. */
  lemma {:induction false} ConvertibleTransitive(u: Type, v: Type, t: Type)
    requires PtrConvertible(u, v) && PtrConvertible(v, t)
    ensures PtrConvertible(u, t)
  {
    if u != v {
      ConvertibleTransitive(u.base, v, t);
    }
  }

  /** An upcast never goes down the hierarchy, and only the identity keeps the depth. */
  lemma {:induction false} ConvertibleDepth(u: Type, t: Type)
    requires PtrConvertible(u, t)
    ensures Depth(t) <= Depth(u)
    ensures Depth(t) == Depth(u) ==> u == t
  {
    if u != t {
      ConvertibleDepth(u.base, t);
    }
  }

  /** Conversion in both directions happens only between a type and itself, so the
      cross-type operations (which demand `U` differ from `T`) are one-way. */
  lemma {:induction false} ConvertibleAntisymmetric(u: Type, t: Type)
    requires PtrConvertible(u, t) && PtrConvertible(t, u)
    ensures u == t
  {
    ConvertibleDepth(u, t);
    ConvertibleDepth(t, u);
  }
}
