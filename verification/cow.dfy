/** The clone-on-write container `Cow<'a, T, R>`: either an owned `T` or a
    borrowed `&'a R`. Every trait the container implements reads it through
    one projection to `R`, so that an owned value and a borrowed view of the
    same value behave alike.

    The capabilities the Rust code asks of `T` and `R` are parameters:
      fromRef: R -> T          `T: From<&R>`
      asRef:   T -> R          `T: AsRef<R>`
      borrow:  T -> R          `T: Borrow<R>`
      clone:   T -> T          `T: Clone`
      eq:      (R, R) -> bool  `R: PartialEq`
      ord:     PartialOrdOps   `R: PartialOrd`
      cmp:     (R, R) -> Ordering   `R: Ord`
      hash:    R -> H          `R: Hash`
    A borrowed reference `&R` is modelled by the value it refers to. */
module Cervine {
  import opened Traits

  datatype Cow<T, R> = Owned(t: T) | Borrowed(r: R)

  // ---------------------------------------------------------------------
  // Variant inspection

  /** `Cow::is_borrowed`. */
  function IsBorrowed<T, R>(c: Cow<T, R>): (b: bool)
    ensures b <==> c.Borrowed?
  {
    match c
    case Owned(_) => false
    case Borrowed(_) => true
  }

  /** `Cow::is_owned`: exactly the negation of `is_borrowed`. */
  function IsOwned<T, R>(c: Cow<T, R>): (b: bool)
    ensures b <==> c.Owned?
    ensures b != IsBorrowed(c)
  {
    match c
    case Owned(_) => true
    case Borrowed(_) => false
  }

  // ---------------------------------------------------------------------
  // Promotion

  /** `Cow::into_owned`: the payload itself when owned, a new `T` built
      from the referenced value when borrowed. */
  function IntoOwned<T, R>(c: Cow<T, R>, fromRef: R -> T): (t: T)
    ensures IsOwned(c) ==> t == c.t
    ensures IsBorrowed(c) ==> t == fromRef(c.r)
  {
    match c
    case Owned(t) => t
    case Borrowed(r) => fromRef(r)
  }

  /** The container `make_mut` leaves behind: always owned, holding what
      `into_owned` would have returned, and untouched when already owned. */
  function Promote<T, R>(c: Cow<T, R>, fromRef: R -> T): (p: Cow<T, R>)
    ensures IsOwned(p)
    ensures p.t == IntoOwned(c, fromRef)
    ensures IsOwned(c) ==> p == c
  {
    match c
    case Owned(_) => c
    case Borrowed(r) => Owned(fromRef(r))
  }

  // ---------------------------------------------------------------------
  // Projection to the borrowed type

  /** `AsRef<R>::as_ref`: the payload's own view when owned, the held
      reference when borrowed. */
  function AsRef<T, R>(c: Cow<T, R>, asRef: T -> R): (v: R)
    ensures IsOwned(c) ==> v == asRef(c.t)
    ensures IsBorrowed(c) ==> v == c.r
  {
    match c
    case Owned(t) => asRef(t)
    case Borrowed(r) => r
  }

  /** `Deref::deref`: the same view as `as_ref`. */
  function Deref<T, R>(c: Cow<T, R>, asRef: T -> R): (v: R)
    ensures v == AsRef(c, asRef)
  {
    match c
    case Owned(t) => asRef(t)
    case Borrowed(r) => r
  }

  /** `Borrow<R>::borrow`: the payload's `Borrow` view when owned, the held
      reference when borrowed; the `as_ref` projection taken through `T`'s
      `Borrow` view instead of its `AsRef` view. */
  function Borrow<T, R>(c: Cow<T, R>, borrow: T -> R): (v: R)
    ensures v == AsRef(c, borrow)
  {
    match c
    case Owned(t) => borrow(t)
    case Borrowed(r) => r
  }

  // ---------------------------------------------------------------------
  // Clone and Default

  /** `Clone::clone`: clones an owned payload, copies a borrowed reference;
      the variant never changes, so cloning never promotes. */
  function Clone<T, R>(c: Cow<T, R>, clone: T -> T): (d: Cow<T, R>)
    ensures IsOwned(d) == IsOwned(c)
    ensures IsOwned(c) ==> d.t == clone(c.t)
    ensures IsBorrowed(c) ==> d == c
  {
    match c
    case Owned(t) => Owned(clone(t))
    case Borrowed(r) => Borrowed(r)
  }

  /** `Default::default`: always owned, holding `T::default()`. */
  function Default<T, R>(default: T): (c: Cow<T, R>)
    ensures IsOwned(c)
    ensures c.t == default
  {
    Owned(default)
  }

  // ---------------------------------------------------------------------
  // Equality

  /** `PartialEq<R>::eq`: compares the projected view with a bare `R`. */
  function EqR<T, R>(c: Cow<T, R>, other: R, asRef: T -> R, eq: (R, R) -> bool): (b: bool)
    ensures IsOwned(c) ==> b == eq(asRef(c.t), other)
    ensures IsBorrowed(c) ==> b == eq(c.r, other)
  {
    eq(AsRef(c, asRef), other)
  }

  /** `PartialEq::eq`: compares the two projected views, whatever the
      variants; the same as comparing the left one with the right one's
      view as a bare `R`. */
  function Eq<T, R>(c1: Cow<T, R>, c2: Cow<T, R>, asRef: T -> R, eq: (R, R) -> bool): (b: bool)
    ensures b == EqR(c1, AsRef(c2, asRef), asRef, eq)
  {
    eq(AsRef(c1, asRef), AsRef(c2, asRef))
  }

  // ---------------------------------------------------------------------
  // Ordering against a bare R (`PartialOrd<R>`)

  /** `PartialOrd<R>::partial_cmp`. */
  function PartialCmpR<T, R>(c: Cow<T, R>, other: R, asRef: T -> R, ord: PartialOrdOps<R, R>): (o: Option<Ordering>)
    ensures IsOwned(c) ==> o == ord.partialCmp(asRef(c.t), other)
    ensures IsBorrowed(c) ==> o == ord.partialCmp(c.r, other)
  {
    ord.partialCmp(AsRef(c, asRef), other)
  }

  /** `PartialOrd<R>::lt`. */
  function LtR<T, R>(c: Cow<T, R>, other: R, asRef: T -> R, ord: PartialOrdOps<R, R>): (b: bool)
    ensures IsOwned(c) ==> b == ord.lt(asRef(c.t), other)
    ensures IsBorrowed(c) ==> b == ord.lt(c.r, other)
  {
    ord.lt(AsRef(c, asRef), other)
  }

  /** `PartialOrd<R>::le`. */
  function LeR<T, R>(c: Cow<T, R>, other: R, asRef: T -> R, ord: PartialOrdOps<R, R>): (b: bool)
    ensures IsOwned(c) ==> b == ord.le(asRef(c.t), other)
    ensures IsBorrowed(c) ==> b == ord.le(c.r, other)
  {
    ord.le(AsRef(c, asRef), other)
  }

  /** `PartialOrd<R>::gt`. */
  function GtR<T, R>(c: Cow<T, R>, other: R, asRef: T -> R, ord: PartialOrdOps<R, R>): (b: bool)
    ensures IsOwned(c) ==> b == ord.gt(asRef(c.t), other)
    ensures IsBorrowed(c) ==> b == ord.gt(c.r, other)
  {
    ord.gt(AsRef(c, asRef), other)
  }

  /** `PartialOrd<R>::ge`. */
  function GeR<T, R>(c: Cow<T, R>, other: R, asRef: T -> R, ord: PartialOrdOps<R, R>): (b: bool)
    ensures IsOwned(c) ==> b == ord.ge(asRef(c.t), other)
    ensures IsBorrowed(c) ==> b == ord.ge(c.r, other)
  {
    ord.ge(AsRef(c, asRef), other)
  }

  // ---------------------------------------------------------------------
  // Ordering between containers (`PartialOrd`, `Ord`): each method is the
  // one against a bare R, applied to the right operand's view.

  /** `PartialOrd::partial_cmp`. */
  function PartialCmp<T, R>(c1: Cow<T, R>, c2: Cow<T, R>, asRef: T -> R, ord: PartialOrdOps<R, R>): (o: Option<Ordering>)
    ensures o == PartialCmpR(c1, AsRef(c2, asRef), asRef, ord)
  {
    ord.partialCmp(AsRef(c1, asRef), AsRef(c2, asRef))
  }

  /** `PartialOrd::lt`. */
  function Lt<T, R>(c1: Cow<T, R>, c2: Cow<T, R>, asRef: T -> R, ord: PartialOrdOps<R, R>): (b: bool)
    ensures b == LtR(c1, AsRef(c2, asRef), asRef, ord)
  {
    ord.lt(AsRef(c1, asRef), AsRef(c2, asRef))
  }

  /** `PartialOrd::le`. */
  function Le<T, R>(c1: Cow<T, R>, c2: Cow<T, R>, asRef: T -> R, ord: PartialOrdOps<R, R>): (b: bool)
    ensures b == LeR(c1, AsRef(c2, asRef), asRef, ord)
  {
    ord.le(AsRef(c1, asRef), AsRef(c2, asRef))
  }

  /** `PartialOrd::gt`. */
  function Gt<T, R>(c1: Cow<T, R>, c2: Cow<T, R>, asRef: T -> R, ord: PartialOrdOps<R, R>): (b: bool)
    ensures b == GtR(c1, AsRef(c2, asRef), asRef, ord)
  {
    ord.gt(AsRef(c1, asRef), AsRef(c2, asRef))
  }

  /** `PartialOrd::ge`. */
  function Ge<T, R>(c1: Cow<T, R>, c2: Cow<T, R>, asRef: T -> R, ord: PartialOrdOps<R, R>): (b: bool)
    ensures b == GeR(c1, AsRef(c2, asRef), asRef, ord)
  {
    ord.ge(AsRef(c1, asRef), AsRef(c2, asRef))
  }

  /** `Ord::cmp`: `R`'s total order on the two views. */
  function Cmp<T, R>(c1: Cow<T, R>, c2: Cow<T, R>, asRef: T -> R, cmp: (R, R) -> Ordering): (o: Ordering)
    ensures IsBorrowed(c1) && IsBorrowed(c2) ==> o == cmp(c1.r, c2.r)
    ensures IsOwned(c1) && IsBorrowed(c2) ==> o == cmp(asRef(c1.t), c2.r)
    ensures IsBorrowed(c1) && IsOwned(c2) ==> o == cmp(c1.r, asRef(c2.t))
    ensures IsOwned(c1) && IsOwned(c2) ==> o == cmp(asRef(c1.t), asRef(c2.t))
  {
    cmp(AsRef(c1, asRef), AsRef(c2, asRef))
  }

  // ---------------------------------------------------------------------
  // Hash

  /** `Hash::hash`: feeds the hasher exactly what `R` feeds it for the view. */
  function Hash<T, R, H>(c: Cow<T, R>, asRef: T -> R, hash: R -> H): (h: H)
    ensures IsOwned(c) ==> h == hash(asRef(c.t))
    ensures IsBorrowed(c) ==> h == hash(c.r)
  {
    hash(AsRef(c, asRef))
  }

  // ---------------------------------------------------------------------
  // The container's trait implementations as values, so that the laws of
  // `Traits` can be stated of them.

  function CowEq<T, R>(asRef: T -> R, eq: (R, R) -> bool): (Cow<T, R>, Cow<T, R>) -> bool {
    (c1, c2) => Eq(c1, c2, asRef, eq)
  }

  function CowEqR<T, R>(asRef: T -> R, eq: (R, R) -> bool): (Cow<T, R>, R) -> bool {
    (c, x) => EqR(c, x, asRef, eq)
  }

  function CowPartialOrd<T, R>(asRef: T -> R, ord: PartialOrdOps<R, R>): PartialOrdOps<Cow<T, R>, Cow<T, R>> {
    PartialOrdOps(
      (c1, c2) => PartialCmp(c1, c2, asRef, ord),
      (c1, c2) => Lt(c1, c2, asRef, ord),
      (c1, c2) => Le(c1, c2, asRef, ord),
      (c1, c2) => Gt(c1, c2, asRef, ord),
      (c1, c2) => Ge(c1, c2, asRef, ord))
  }

  function CowPartialOrdR<T, R>(asRef: T -> R, ord: PartialOrdOps<R, R>): PartialOrdOps<Cow<T, R>, R> {
    PartialOrdOps(
      (c, x) => PartialCmpR(c, x, asRef, ord),
      (c, x) => LtR(c, x, asRef, ord),
      (c, x) => LeR(c, x, asRef, ord),
      (c, x) => GtR(c, x, asRef, ord),
      (c, x) => GeR(c, x, asRef, ord))
  }

  function CowCmp<T, R>(asRef: T -> R, cmp: (R, R) -> Ordering): (Cow<T, R>, Cow<T, R>) -> Ordering {
    (c1, c2) => Cmp(c1, c2, asRef, cmp)
  }

  function CowHash<T, R, H>(asRef: T -> R, hash: R -> H): Cow<T, R> -> H {
    c => Hash(c, asRef, hash)
  }

  // ---------------------------------------------------------------------
  // Lemmas: everything but the variant inspection reads the container
  // through its view

  /** The three projections agree wherever `T`'s `Borrow` and `AsRef`
      views do. */
  lemma ProjectionsAgree<T, R>(c: Cow<T, R>, asRef: T -> R, borrow: T -> R)
    requires forall t :: borrow(t) == asRef(t)
    ensures Borrow(c, borrow) == AsRef(c, asRef)
    ensures Deref(c, asRef) == AsRef(c, asRef)
  {
  }

  /** An owned value and a borrowed reference to its view project to the
      same `R`, so they are equal to each other and to that `R` whenever
      `R`'s equality is reflexive there. */
  lemma OwnedEqualsBorrowedView<T, R>(t: T, asRef: T -> R, eq: (R, R) -> bool)
    requires eq(asRef(t), asRef(t))
    ensures AsRef(Owned(t), asRef) == AsRef(Borrowed(asRef(t)), asRef)
    ensures Eq(Owned(t), Borrowed(asRef(t)), asRef, eq)
    ensures Eq(Borrowed(asRef(t)), Owned(t), asRef, eq)
    ensures EqR(Owned(t), asRef(t), asRef, eq) && EqR(Borrowed(asRef(t)), asRef(t), asRef, eq)
  {
  }

  /** Every forwarded operation gives the same answer for two containers
      with the same view, whichever their variants, on either side. */
  lemma ForwardingDependsOnlyOnView<T, R, H>(
    c1: Cow<T, R>, c2: Cow<T, R>, other: Cow<T, R>, x: R,
    asRef: T -> R, eq: (R, R) -> bool, ord: PartialOrdOps<R, R>, cmp: (R, R) -> Ordering, hash: R -> H)
    requires AsRef(c1, asRef) == AsRef(c2, asRef)
    ensures Deref(c1, asRef) == Deref(c2, asRef)
    ensures EqR(c1, x, asRef, eq) == EqR(c2, x, asRef, eq)
    ensures Eq(c1, other, asRef, eq) == Eq(c2, other, asRef, eq)
    ensures Eq(other, c1, asRef, eq) == Eq(other, c2, asRef, eq)
    ensures PartialCmpR(c1, x, asRef, ord) == PartialCmpR(c2, x, asRef, ord)
    ensures LtR(c1, x, asRef, ord) == LtR(c2, x, asRef, ord)
    ensures LeR(c1, x, asRef, ord) == LeR(c2, x, asRef, ord)
    ensures GtR(c1, x, asRef, ord) == GtR(c2, x, asRef, ord)
    ensures GeR(c1, x, asRef, ord) == GeR(c2, x, asRef, ord)
    ensures PartialCmp(c1, other, asRef, ord) == PartialCmp(c2, other, asRef, ord)
    ensures PartialCmp(other, c1, asRef, ord) == PartialCmp(other, c2, asRef, ord)
    ensures Lt(c1, other, asRef, ord) == Lt(c2, other, asRef, ord)
    ensures Lt(other, c1, asRef, ord) == Lt(other, c2, asRef, ord)
    ensures Le(c1, other, asRef, ord) == Le(c2, other, asRef, ord)
    ensures Le(other, c1, asRef, ord) == Le(other, c2, asRef, ord)
    ensures Gt(c1, other, asRef, ord) == Gt(c2, other, asRef, ord)
    ensures Gt(other, c1, asRef, ord) == Gt(other, c2, asRef, ord)
    ensures Ge(c1, other, asRef, ord) == Ge(c2, other, asRef, ord)
    ensures Ge(other, c1, asRef, ord) == Ge(other, c2, asRef, ord)
    ensures Cmp(c1, other, asRef, cmp) == Cmp(c2, other, asRef, cmp)
    ensures Cmp(other, c1, asRef, cmp) == Cmp(other, c2, asRef, cmp)
    ensures Hash(c1, asRef, hash) == Hash(c2, asRef, hash)
  {
  }

  /** Comparing with a bare `R` (`PartialEq<R>`, `PartialOrd<R>`) is
      comparing with a container that borrows it. */
  lemma BareOperandActsBorrowed<T, R>(c: Cow<T, R>, x: R, asRef: T -> R, eq: (R, R) -> bool, ord: PartialOrdOps<R, R>)
    ensures EqR(c, x, asRef, eq) == Eq(c, Borrowed(x), asRef, eq)
    ensures PartialCmpR(c, x, asRef, ord) == PartialCmp(c, Borrowed(x), asRef, ord)
    ensures LtR(c, x, asRef, ord) == Lt(c, Borrowed(x), asRef, ord)
    ensures LeR(c, x, asRef, ord) == Le(c, Borrowed(x), asRef, ord)
    ensures GtR(c, x, asRef, ord) == Gt(c, Borrowed(x), asRef, ord)
    ensures GeR(c, x, asRef, ord) == Ge(c, Borrowed(x), asRef, ord)
  {
  }

  // ---------------------------------------------------------------------
  // Lemmas: the container keeps every trait law that R keeps

  /** `PartialEq`: symmetry and transitivity carry over from `R`. */
  lemma PartialEqLawsLift<T(!new), R(!new)>(asRef: T -> R, eq: (R, R) -> bool)
    requires PartialEqLaws(eq)
    ensures PartialEqLaws(CowEq(asRef, eq))
  {
  }

  /** `Eq`: when `R`'s equality is an equivalence relation, so is the
      container's. */
  lemma EqLawsLift<T(!new), R(!new)>(asRef: T -> R, eq: (R, R) -> bool)
    requires EqLaws(eq)
    ensures EqLaws(CowEq(asRef, eq))
  {
    PartialEqLawsLift(asRef, eq);
  }

  /** `PartialOrd` and `PartialOrd<R>`: when `R`'s comparison methods agree
      with its `partial_cmp` and its equality, the container's do too. */
  lemma PartialOrdLawsLift<T(!new), R(!new)>(asRef: T -> R, eq: (R, R) -> bool, ord: PartialOrdOps<R, R>)
    requires PartialOrdLaws(eq, ord)
    ensures PartialOrdLaws(CowEq(asRef, eq), CowPartialOrd(asRef, ord))
    ensures PartialOrdLaws(CowEqR(asRef, eq), CowPartialOrdR(asRef, ord))
  {
  }

  /** `PartialOrd`: when `R`'s `<` and `>` are transitive and dual to each
      other, the container's are too, whatever the variants. */
  lemma PartialOrdOrderLawsLift<T(!new), R(!new)>(asRef: T -> R, ord: PartialOrdOps<R, R>)
    requires PartialOrdOrderLaws(ord)
    ensures PartialOrdOrderLaws(CowPartialOrd(asRef, ord))
  {
  }

  /** `Ord`: when `R`'s `cmp` is a total order consistent with its
      `partial_cmp` and equality, the container's `cmp` is one too. */
  lemma OrdLawsLift<T(!new), R(!new)>(asRef: T -> R, eq: (R, R) -> bool, ord: PartialOrdOps<R, R>, cmp: (R, R) -> Ordering)
    requires OrdLaws(eq, ord, cmp)
    ensures OrdLaws(CowEq(asRef, eq), CowPartialOrd(asRef, ord), CowCmp(asRef, cmp))
  {
    EqLawsLift(asRef, eq);
    PartialOrdLawsLift(asRef, eq, ord);
  }

  /** `Hash`: when equal `R`s hash equally, equal containers hash equally,
      whatever their variants. */
  lemma HashLawsLift<T(!new), R(!new), H>(asRef: T -> R, eq: (R, R) -> bool, hash: R -> H)
    requires HashLaws(eq, hash)
    ensures HashLaws(CowEq(asRef, eq), CowHash(asRef, hash))
  {
  }

  // ---------------------------------------------------------------------
  // Lemmas: clone and promotion keep the value

  /** A clone is equal to the original when `T`'s clone keeps the view up
      to `R`'s equality (a borrowed clone holds the very same reference, so
      there only reflexivity of `R`'s equality at the view is needed). */
  lemma CloneEqualsOriginal<T(!new), R(!new)>(c: Cow<T, R>, clone: T -> T, asRef: T -> R, eq: (R, R) -> bool)
    requires eq(AsRef(c, asRef), AsRef(c, asRef))
    requires forall t :: eq(asRef(clone(t)), asRef(t))
    ensures Eq(Clone(c, clone), c, asRef, eq)
  {
  }

  /** `into_owned` and `make_mut` keep the value: when a `T` built from a
      reference views back as an equal `R`, the promoted container equals
      the original. */
  lemma PromotionPreservesView<T(!new), R(!new)>(c: Cow<T, R>, fromRef: R -> T, asRef: T -> R, eq: (R, R) -> bool)
    requires eq(AsRef(c, asRef), AsRef(c, asRef))
    requires forall r :: eq(asRef(fromRef(r)), r)
    ensures EqR(Owned(IntoOwned(c, fromRef)), AsRef(c, asRef), asRef, eq)
    ensures Eq(Promote(c, fromRef), c, asRef, eq)
  {
  }

  /** The state after `n` successive `make_mut` calls, and how many of them
      built a `T` from a reference. */
  ghost function MakeMutCalls<T, R>(c: Cow<T, R>, fromRef: R -> T, n: nat): (Cow<T, R>, nat)
    decreases n
  {
    if n == 0 then (c, 0)
    else
      var (d, k) := MakeMutCalls(Promote(c, fromRef), fromRef, n - 1);
      (d, k + if IsBorrowed(c) then 1 else 0)
  }

  /** Promotion happens at most once: any number of `make_mut` calls leaves
      the state the first one leaves, and builds a `T` from the reference
      only when the container started out borrowed, and then only once. */
  lemma {:induction false} MakeMutPromotesAtMostOnce<T, R>(c: Cow<T, R>, fromRef: R -> T, n: nat)
    requires n >= 1
    ensures MakeMutCalls(c, fromRef, n).0 == Promote(c, fromRef)
    ensures MakeMutCalls(c, fromRef, n).1 == if IsBorrowed(c) then 1 else 0
    decreases n
  {
    if n > 1 {
      MakeMutPromotesAtMostOnce(Promote(c, fromRef), fromRef, n - 1);
    }
  }
}
