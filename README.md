# uniform_ptr in Dafny

`akt::uniform_ptr<T>` is a copyable handle to a `T`. Callers can store the referent in several ways:

- as a value copied or moved into a new shared cell;
- as a borrowed raw pointer;
- as a `std::shared_ptr`;
- as a `std::unique_ptr`, which is promoted to shared ownership.

Whatever the storage, callers see one interface: `operator bool`, `operator*`, `operator->` and `get()`. A handle over a derived class converts to a handle over its base.

Internally the handle holds a `std::function` that returns a pointer captured when it was built. So, observably, the handle is a possibly-null pointer fixed at construction that only assignment replaces. The model states exactly that.

- `PointerTypes` (pointer_types.dfy) gives static types as single-inheritance chains. `PtrConvertible(u, t)` stands for `std::is_convertible_v<U*, T*>`, the guard on the pointer, smart-pointer, move-from-value and cross-type constructors and assignments (uniform_ptr.hpp:20-30, 45-63). The file proves that conversion agrees with the type's lineage, and that it is transitive and antisymmetric.
- `Pointers` (pointers.dfy) holds:
  - heap objects (`Cell`, whose most-derived type is fixed at allocation);
  - raw pointers `U*` (`RawPtr`, with static pointee type and address) and the upcast `U*` to `T*`;
  - `std::shared_ptr` and `std::unique_ptr`, seen through the address they hold.
- `Uniform` (uniform_ptr.dfy) holds the class `UniformPtr<V>`:
  - `elem` is the element type `T`;
  - `target` is what `get()` returns;
  - a ghost `mode` records the ownership discipline: Empty, Owned, Borrowed or Shared.

  Each C++ constructor and assignment operator is one Dafny constructor or method.
- `UniformPtrTests` (uniform_ptr_tests.dfy) holds clients verified only from the handle's contracts:
  - the expected values of the unit tests in TestUniformPtr/TestUniformPtr.cpp:48-107 (EmptyHandlesHoldNull, BoolCast, ConstRefCtor, ValuesAndPointers);
  - concrete scenarios derived from the header's copy, move and conversion operations, which those tests do not exercise (CopySharesOwnedValue, CopySharesBorrowed, MoveKeepsReferent, CovariantFromUnique, CovariantFromShared, SelfMoveAssign);
  - aliasing and conversion guarantees stated for arbitrary handles (WriteVisibleThroughCopy, ConversionIsASnapshot, ConversionChain).

Points where the code's behaviour deserves a note:

- A moved-from handle is not reset to empty. Lines 34, 40, 49 and 61 of uniform_ptr.hpp only move the `std::function`, which the C++ standard leaves "valid but unspecified". libstdc++ and MSVC leave it empty, and `get()` on it then throws `std::bad_function_call`. libc++ can keep the target, and then the moved-from handle still returns its old pointer. The model therefore promises nothing about a moved-from handle beyond its invariant.
- The copy-a-value constructor (uniform_ptr.hpp:17-18) has no `is_convertible_v<U*, T*>` guard. A non-convertible `U` still fails to compile, inside the accessor's `-> T*` return. The model states the conversion as a requirement, as for the guarded constructors.
- Owned and Shared are both built on `std::shared_ptr` (lines 18, 21, 27, 30). The ghost tag separates a cell the handle allocated (Owned) from one the caller supplied (Shared); the tag affects nothing observable.
- The unit tests name the namespace `akl` while the header declares `akt`. This is a naming mismatch in the repository and is not modelled.

## Model

| member | source | states |
|---|---|---|
| PointerTypes.ConvertibleIffInLineage | uniform_ptr.hpp:23 | a fact about the model's encoding of the guard `is_convertible_v<U*, T*>`: it holds exactly when `T` is in `U`'s chain of public bases (both directions) |
| PointerTypes.ConvertibleTransitive | uniform_ptr.hpp:45-49 | an object behind a `U*` that converts to `T*` is a `T`: upcasts compose, the fact cross-type conversion relies on |
| PointerTypes.ConvertibleDepth | uniform_ptr.hpp:45 | a fact about the type encoding behind the `!is_same_v<U, T> && is_convertible_v<U*, T*>` guard: an upcast never moves down the hierarchy, and only the identity conversion keeps the depth |
| PointerTypes.ConvertibleAntisymmetric | uniform_ptr.hpp:45 | a fact about the type encoding: mutual convertibility means the same type, so the cross-type operations (`U` other than `T`) go one way only |
| Pointers.Upcast | uniform_ptr.hpp:24 | converting `U*` to `T*` keeps the address, widens the static type, and keeps a well-typed pointer well-typed |
| Uniform.UniformPtr.Null | uniform_ptr.hpp:14 | default and `nullptr` construction give an Empty handle whose `get()` is null |
| Uniform.UniformPtr.FromValue | uniform_ptr.hpp:16-21 | copy or move of a value: a freshly allocated object of the argument's type holding the argument's value, mode Owned |
| Uniform.UniformPtr.FromPointer | uniform_ptr.hpp:23-24 | `get()` is the caller's pointer upcast to `T*`, null included; mode Borrowed |
| Uniform.UniformPtr.FromShared | uniform_ptr.hpp:26-27 | `get()` is the `shared_ptr`'s pointer upcast to `T*`; mode Shared |
| Uniform.UniformPtr.FromUnique | uniform_ptr.hpp:29-30 | `get()` is the `unique_ptr`'s former pointer upcast; mode Shared; the `unique_ptr` is left null |
| Uniform.UniformPtr.Copy | uniform_ptr.hpp:33 | the copy's `get()` and mode equal the source's, so both alias one referent |
| Uniform.UniformPtr.Move | uniform_ptr.hpp:34 | `get()` and mode are the source's former ones; the source stays valid |
| Uniform.UniformPtr.CopyAssign | uniform_ptr.hpp:35 | `get()` and mode become the source's; self-assignment keeps the handle |
| Uniform.UniformPtr.MoveAssign | uniform_ptr.hpp:36-43 | `get()` becomes the source's former pointer; when the source is this handle, nothing changes |
| Uniform.UniformPtr.Convert | uniform_ptr.hpp:45-46 | a `uniform_ptr<U>` with `U` other than `T` gives a `T` handle with the source's pointer upcast and the source's mode |
| Uniform.UniformPtr.ConvertMove | uniform_ptr.hpp:48-49 | as Convert, from the source's former state; the source stays valid |
| Uniform.UniformPtr.ConvertAssign | uniform_ptr.hpp:51-56 | `get()` becomes the source's pointer upcast, mode the source's; the source is unchanged |
| Uniform.UniformPtr.ConvertMoveAssign | uniform_ptr.hpp:58-63 | `get()` becomes the source's former pointer upcast; the source stays valid |
| Uniform.UniformPtr.Get | uniform_ptr.hpp:77-80 | `get()` is null or points at an object whose type converts to `T` |
| Uniform.UniformPtr.IsNonEmpty | uniform_ptr.hpp:67 | `bool(h)` is exactly `get() != nullptr`: always true for Owned handles, whatever value they hold, and always false for Empty ones |
| Uniform.UniformPtr.Deref | uniform_ptr.hpp:68-71 | reading `*h` is the value of the object `get()` points at; requires a non-null `get()` |
| Uniform.UniformPtr.Arrow | uniform_ptr.hpp:72-75 | `operator->` is `get()` |
| Uniform.UniformPtr.WriteThrough | uniform_ptr.hpp:68-71 | `*h = v`, an assignment of the whole referent through its own type, changes the referent to `v` and leaves `get()` and the mode as they were (slicing assignment is left out) |
| UniformPtrTests.EmptyHandlesHoldNull | TestUniformPtr/TestUniformPtr.cpp:48-62 | default and null handles over `char`, `IntValue`, `IntNonMovable` and `IntNonCopyable` all have a null `get()` |
| UniformPtrTests.BoolCast | TestUniformPtr/TestUniformPtr.cpp:77-89 | empty handles test false; a handle holding `false` tests true |
| UniformPtrTests.ConstRefCtor | TestUniformPtr/TestUniformPtr.cpp:64-75 | handles built from values dereference to `'A'`, `true` and `3`; `->get()` gives 4 and 6, the latter through the base type |
| UniformPtrTests.ValuesAndPointers | TestUniformPtr/TestUniformPtr.cpp:91-107 | moved and copied values dereference to 1, 2 and 3; a borrowed `&b` is `b` itself; derived objects read 7 and 5 |
| UniformPtrTests.CopySharesOwnedValue | uniform_ptr.hpp:33 | writing 14 through a value handle is seen through its copy |
| UniformPtrTests.CopySharesBorrowed | uniform_ptr.hpp:24 | writing 18 through a borrowing handle is seen through its copy and in the borrowed variable |
| UniformPtrTests.MoveKeepsReferent | uniform_ptr.hpp:34 | a move-constructed handle dereferences to the moved handle's value |
| UniformPtrTests.CovariantFromUnique | uniform_ptr.hpp:29-30 | a promoted `unique_ptr` converted to the base type keeps the object's identity and value, and the `unique_ptr` is emptied |
| UniformPtrTests.CovariantFromShared | uniform_ptr.hpp:51-56 | cross-type assignment from a `shared_ptr`-backed handle keeps the object's identity and value |
| UniformPtrTests.SelfMoveAssign | uniform_ptr.hpp:38 | `h = std::move(h)` leaves `*h` as it was |
| UniformPtrTests.WriteVisibleThroughCopy | uniform_ptr.hpp:33 | for any non-empty handle, a write through a copy is observed through the original |
| UniformPtrTests.ConversionIsASnapshot | uniform_ptr.hpp:46 | a converted handle keeps the pointer it was built from after the source handle is reassigned |
| UniformPtrTests.ConversionChain | uniform_ptr.hpp:45-46 | converting twice up the hierarchy keeps the pointer and the mode |

## Left out

- Lifetime, destruction and reference counting (uniform_ptr.hpp:18-30, 65). Dafny's heap is never freed, so neither the release of the last owner nor a dangling borrowed pointer has a counterpart.
- The type erasure through `std::function` (uniform_ptr.hpp:82). The model stores the captured pointer itself.
- Compile-time overload selection. This covers the `enable_if` conditions on copy and move constructibility and on reference types, the choice between the copy and the move path, and `const T` access. The copy and move value constructors behave alike and are the one constructor `FromValue`.
- Pointer conversions other than upcasts along single public inheritance. Multiple and virtual bases, with their address adjustment, are not modelled; nor are `void*` or cv-qualified targets.
- Allocation failure. `std::make_shared` (lines 18, 21), the `std::shared_ptr` built from a `unique_ptr` (line 30), and the `std::function` storing each capturing accessor (lines 18-30, 46, 49, 54, 61, and the copies at 33 and 35) may allocate and throw `std::bad_alloc`; at the `noexcept` line 49 that would be `std::terminate`. Every constructor and assignment of the model always succeeds.
- Uniform.UniformPtr.WriteThrough: models assigning the whole referent through its own type. Assignment through a base-typed handle over a derived object (slicing: `T::operator=` copies only the `T` subobject, which for the tests' `IntValue` copies no member at all) is not modelled.
- Uniform.UniformPtr.Move: says nothing about the moved-from source beyond its invariant, because the C++ standard leaves a moved-from `std::function` unspecified. The `std::bad_function_call` its `get()` throws under libstdc++ and MSVC, and the old pointer libc++ can keep, are not modelled.
- Uniform.UniformPtr.ConvertMove: the same holds for the moved-from source.
- Uniform.UniformPtr.MoveAssign: the same holds for a distinct moved-from source.
- Uniform.UniformPtr.ConvertMoveAssign: the same holds for the moved-from source.
- Thread safety of the reference counts, which is delegated to the standard library.
- AbstractStorageTest/AbstractStorageTest.cpp is not part of this model. It is a stream- and file-writing demonstration that only consumes the handle.
