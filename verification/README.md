# cervine: a clone-on-write container, modelled in Dafny

The crate defines one type, `Cow<'a, T, R>`. A value of it is either
`Owned(T)`, an owned value, or `Borrowed(&'a R)`, a reference to a value
owned elsewhere. Callers read it through one projection to `R`: `as_ref`,
`deref` or `borrow`. An owned payload is viewed through `T`'s `AsRef<R>` or
`Borrow<R>`, and a borrowed reference is returned as it is. Equality,
ordering and hashing all go through that view. So an owned value and a
borrowed view of the same value behave alike. `into_owned` and `make_mut`
turn a borrowed container into an owned one. They build the `T` through
`T: From<&R>`, and `make_mut` does it in place, at most once.

Files:

- `traits.dfy`, module `Traits`. `Ordering`, `Option`, and the
  `PartialOrd<B>`-for-`A` method set as a record of functions
  (`PartialOrdOps`). It also holds the laws Rust documents for
  `PartialEq`, `Eq`, `PartialOrd` (consistency of the methods, and
  transitivity and duality of `<` and `>`), `Ord` and `Hash`, as ghost
  predicates over those functions.
- `cow.dfy`, module `Cervine`. The datatype `Cow<T, R> = Owned(t) |
  Borrowed(r)`, every pure operation and trait method of the crate, and
  the lemmas about them.
- `cow_slot.dfy`, module `CervineMut`. `make_mut`, the one in-place
  update: class `CowSlot` holds a container in its field `cow`, and its
  method `MakeMut` rewrites that field.

The trait bounds on `T` and `R` become function parameters of the
operations that need them:

- `fromRef: R -> T` for `From<&R>`
- `asRef: T -> R` for `AsRef<R>`
- `borrow: T -> R` for `Borrow<R>`
- `clone: T -> T` and `default: T`
- `eq` for `R: PartialEq`, `ord` for `R: PartialOrd`, `cmp` for `R: Ord`
- `hash: R -> H` for `R: Hash`

The model does not assume any trait law. Each lemma that needs one takes
it as a precondition, for example "`R`'s equality is an equivalence".

## Model

| member | source | states |
|---|---|---|
| `Cervine.IsBorrowed` | src/lib.rs:19-24 | true exactly for the `Borrowed` variant |
| `Cervine.IsOwned` | src/lib.rs:26-31 | true exactly for the `Owned` variant, and always the negation of `is_borrowed`: exactly one variant is active |
| `Cervine.IntoOwned` | src/lib.rs:35-40 | an owned container yields its payload unchanged; a borrowed one yields `fromRef` of the referenced value |
| `Cervine.Promote` | src/lib.rs:42-53 | the state `make_mut` leaves: always `Owned`, holding what `into_owned` returns, and identical to the input when that was already owned |
| `CervineMut.CowSlot.constructor` | src/lib.rs:13-16 | the caller places a container of either variant; no promotion has happened yet |
| `CervineMut.CowSlot.MakeMut` | src/lib.rs:42-53 | afterwards the container is `Promote(old)`, so it is `Owned` and the returned value is its payload. An owned container is left unchanged, with no conversion. A borrowed one gets `fromRef(r)` with exactly one conversion. An owned container stays exactly as it was, so `make_mut` never turns an owned container borrowed. The invariant `Valid` is kept: at most one conversion since the container was placed in the slot. The `unreachable!()` arm is proved dead |
| `Cervine.MakeMutPromotesAtMostOnce` | src/lib.rs:42-53 | any number n >= 1 of successive `make_mut` calls leaves the state the first call leaves. They build a `T` from the reference once if the container started borrowed, and never otherwise |
| `Cervine.PromotionPreservesView` | src/lib.rs:34-53 | if a `T` built from a reference views back as an equal `R`, and `R`'s equality is reflexive at the container's view, then `into_owned` equals the original view, and the promoted container equals the original under the container's equality |
| `Cervine.AsRef` | src/lib.rs:56-63 | `Owned(t)` projects to `asRef(t)`; `Borrowed(r)` projects to `r` itself |
| `Cervine.Deref` | src/lib.rs:65-73 | always the same view as `as_ref` |
| `Cervine.Borrow` | src/lib.rs:75-82 | the `as_ref` projection taken through `T`'s `Borrow` view: `Owned(t)` projects to `borrow(t)`, `Borrowed(r)` to `r` itself |
| `Cervine.ProjectionsAgree` | src/lib.rs:56-82 | `borrow`, `deref` and `as_ref` return the same view whenever `T`'s `Borrow` and `AsRef` views agree |
| `Cervine.Clone` | src/lib.rs:90-97 | the variant is kept, so a clone never promotes. An owned payload is cloned; a borrowed container is copied with the same reference |
| `Cervine.CloneEqualsOriginal` | src/lib.rs:90-97 | if `T`'s clone keeps the view up to `R`'s equality, and that equality is reflexive at the container's view, then the clone equals the original |
| `Cervine.Default` | src/lib.rs:99-103 | always `Owned`, holding `T::default()` |
| `Cervine.EqR` | src/lib.rs:105-109 | comparing with a bare `R` is `R`'s equality on the view: on `asRef(t)` for an owned container, on the referenced value for a borrowed one |
| `Cervine.Eq` | src/lib.rs:111-115 | container equality is comparing the left container with the right one's view as a bare `R` |
| `Cervine.OwnedEqualsBorrowedView` | src/lib.rs:105-115 | `Owned(t)` and `Borrowed(asRef(t))` have the same view. They are equal to each other, in both orders, and to `asRef(t)`, whenever `R`'s equality is reflexive at that value |
| `Cervine.PartialEqLawsLift` | src/lib.rs:111-115 | if `R`'s equality is symmetric and transitive, so is the container's |
| `Cervine.EqLawsLift` | src/lib.rs:117 | if `R: Eq` (an equivalence relation), then container equality is an equivalence relation |
| `Cervine.BareOperandActsBorrowed` | src/lib.rs:105-153 | `eq`, `partial_cmp`, `lt`, `le`, `gt` and `ge` against a bare `R` give the same answer as against a container borrowing it |
| `Cervine.PartialCmpR` | src/lib.rs:120-122 | `R`'s `partial_cmp` of the view against the bare `R`, for each variant |
| `Cervine.LtR` | src/lib.rs:123-125 | `R`'s own `lt` of the view against the bare `R`, for each variant |
| `Cervine.LeR` | src/lib.rs:126-128 | `R`'s own `le` of the view against the bare `R`, for each variant |
| `Cervine.GtR` | src/lib.rs:129-131 | `R`'s own `gt` of the view against the bare `R`, for each variant |
| `Cervine.GeR` | src/lib.rs:132-134 | `R`'s own `ge` of the view against the bare `R`, for each variant |
| `Cervine.PartialCmp` | src/lib.rs:138-140 | between containers: the same as `partial_cmp` against the right operand's view |
| `Cervine.Lt` | src/lib.rs:141-143 | between containers: the same as `lt` against the right operand's view |
| `Cervine.Le` | src/lib.rs:144-146 | between containers: the same as `le` against the right operand's view |
| `Cervine.Gt` | src/lib.rs:147-149 | between containers: the same as `gt` against the right operand's view |
| `Cervine.Ge` | src/lib.rs:150-152 | between containers: the same as `ge` against the right operand's view |
| `Cervine.PartialOrdLawsLift` | src/lib.rs:119-153 | if `R`'s `lt`/`le`/`gt`/`ge` agree with its `partial_cmp`, and `partial_cmp` agrees with its equality, then the same holds for the container against containers and against a bare `R` |
| `Cervine.PartialOrdOrderLawsLift` | src/lib.rs:137-153 | if `R`'s `<` and `>` are transitive and `a < b` exactly when `b > a`, the same holds between containers, whatever their variants |
| `Cervine.Cmp` | src/lib.rs:156-158 | `R`'s `cmp` of the two views, for each of the four variant pairs |
| `Cervine.OrdLawsLift` | src/lib.rs:155-161 | if `R`'s `cmp` is a total order that agrees with its `partial_cmp` and equality, then the container's `cmp` is one too |
| `Cervine.Hash` | src/lib.rs:163-167 | hashes what `R` hashes for the view, for each variant |
| `Cervine.HashLawsLift` | src/lib.rs:163-167 | if equal `R`s hash equally, equal containers hash equally, whatever their variants |
| `Cervine.ForwardingDependsOnlyOnView` | src/lib.rs:105-167 | two containers with the same view give the same answer from every forwarded operation, on either side: `deref`, both `eq`s, every ordering method, `cmp` and `hash` |

## Left out

- `Display::fmt` (src/lib.rs:84-88) writes whatever `R` writes for the view. Formatter output is I/O, so it is not modelled.
- The derived `Debug` (src/lib.rs:12) writes `Owned(..)` or `Borrowed(..)` with the payload's own `Debug` output. It is formatter output, like `Display`, and is not modelled.
- The derived `Copy` (src/lib.rs:12), the lifetime `'a` and `R: ?Sized` (src/lib.rs:13) are compile-time matters with no behaviour to model.
- `min`, `max` and `clamp` on containers (src/lib.rs:160) are the standard library's default methods, not code of this crate.
- `ne` is likewise `PartialEq`'s default method and is not modelled.
- This version of src/lib.rs has no fallible promotion (`try_into_owned`, `try_make_mut`) and no serialization, so the model has neither.
- A reference `&R` is modelled by the value it refers to. Address identity is not distinguished, so "a clone of a borrowed container holds the same reference" is stated as equality of the held values.
- CervineMut.CowSlot.MakeMut: returns the owned payload as a value, not a `&mut T` into the container. Later writes through that reference, which would change the container's payload, are not modelled.
- CervineMut.CowSlot.Valid counts conversions from the moment a container is placed with the constructor. Rust also lets a caller overwrite the container directly (`*c = Cow::Borrowed(..)`); the slot has no such operation, because the crate defines none, so "at most once" is stated per placement.
- Cervine.Hash: yields the value `R`'s hash contributes, not the sequence of updates to a `Hasher`. The hasher's internal state is not modelled.
