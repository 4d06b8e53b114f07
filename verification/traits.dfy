/** The pieces of Rust's `core::cmp` and `core::hash` that the container
    forwards to. A trait implementation is modelled as the functions it
    provides, passed around as values; the laws that Rust documents for each
    trait (and that implementors are expected, not forced, to keep) are ghost
    predicates over those functions. */
module Traits {

  /** `core::cmp::Ordering`. */
  datatype Ordering = Less | Equal | Greater {
    /** `Ordering::reverse`: swaps `Less` and `Greater`. */
    function Reverse(): Ordering {
      match this
      case Less => Greater
      case Equal => Equal
      case Greater => Less
    }
  }

  datatype Option<+V> = None | Some(value: V)

  /** An implementation of `PartialOrd<B>` for `A`: its required method
      `partial_cmp` and the four comparison methods, which an implementation
      may override. */
  datatype PartialOrdOps<!A, !B> = PartialOrdOps(
    partialCmp: (A, B) -> Option<Ordering>,
    lt: (A, B) -> bool,
    le: (A, B) -> bool,
    gt: (A, B) -> bool,
    ge: (A, B) -> bool)

  /** What `PartialEq` asks of `eq`: symmetry and transitivity. */
  ghost predicate PartialEqLaws<A(!new)>(eq: (A, A) -> bool) {
    && (forall a, b :: eq(a, b) ==> eq(b, a))
    && (forall a, b, c :: eq(a, b) && eq(b, c) ==> eq(a, c))
  }

  /** What `Eq` adds: reflexivity, making `eq` an equivalence relation. */
  ghost predicate EqLaws<A(!new)>(eq: (A, A) -> bool) {
    PartialEqLaws(eq) && forall a :: eq(a, a)
  }

  /** What `PartialOrd<B>` asks of an implementation for `A`: `partial_cmp`
      agrees with `PartialEq<B>`, and `lt`, `le`, `gt`, `ge` agree with
      `partial_cmp`. */
  ghost predicate PartialOrdLaws<A(!new), B(!new)>(eq: (A, B) -> bool, ord: PartialOrdOps<A, B>) {
    forall a, b ::
      && (eq(a, b) <==> ord.partialCmp(a, b) == Some(Equal))
      && (ord.lt(a, b) <==> ord.partialCmp(a, b) == Some(Less))
      && (ord.gt(a, b) <==> ord.partialCmp(a, b) == Some(Greater))
      && (ord.le(a, b) <==> ord.lt(a, b) || eq(a, b))
      && (ord.ge(a, b) <==> ord.gt(a, b) || eq(a, b))
  }

  /** What `PartialOrd` further asks of an implementation for `A` against
      itself: `<` and `>` are transitive, and `a < b` exactly when `b > a`. */
  ghost predicate PartialOrdOrderLaws<A(!new)>(ord: PartialOrdOps<A, A>) {
    && (forall a, b, c :: ord.lt(a, b) && ord.lt(b, c) ==> ord.lt(a, c))
    && (forall a, b, c :: ord.gt(a, b) && ord.gt(b, c) ==> ord.gt(a, c))
    && (forall a, b :: ord.lt(a, b) <==> ord.gt(b, a))
  }

  /** What `Ord` asks of `cmp`: the type is `Eq` and `PartialOrd`,
      `partial_cmp` is always `Some(cmp)`, `cmp` is antisymmetric (swapping
      the operands reverses the result) and transitive for each of `<`, `==`
      and `>`. */
  ghost predicate OrdLaws<A(!new)>(eq: (A, A) -> bool, ord: PartialOrdOps<A, A>, cmp: (A, A) -> Ordering) {
    && EqLaws(eq)
    && PartialOrdLaws(eq, ord)
    && (forall a, b :: ord.partialCmp(a, b) == Some(cmp(a, b)))
    && (forall a, b :: cmp(b, a) == cmp(a, b).Reverse())
    && (forall a, b, c :: cmp(a, b) == cmp(b, c) ==> cmp(a, c) == cmp(a, b))
  }

  /** What `Hash` asks when the type is also `PartialEq`: equal values hash
      equally. The hasher is abstracted to the value `hash` feeds into it. */
  ghost predicate HashLaws<A(!new), H>(eq: (A, A) -> bool, hash: A -> H) {
    forall a, b :: eq(a, b) ==> hash(a) == hash(b)
  }
}
