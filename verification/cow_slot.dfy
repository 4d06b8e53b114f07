/** `Cow::make_mut`, the one operation that changes a container in place.
    A `CowSlot` is a mutable place holding a container; `make_mut` rewrites
    it from borrowed to owned and hands back the owned payload. */
module CervineMut {
  import opened Cervine

  class CowSlot<T, R> {
    var cow: Cow<T, R>
    /** How many times a `T` has been built from a reference since the
        container was placed here. */
    ghost var conversions: nat

    /** Promotion is one-way and happens at most once: a borrowed container
        has never been promoted, and no container is promoted twice. */
    ghost predicate Valid()
      reads this
    {
      conversions <= 1 && (IsBorrowed(cow) ==> conversions == 0)
    }

    /** Places a container of either variant, chosen by the caller. */
    constructor (c: Cow<T, R>)
      ensures Valid()
      ensures cow == c && conversions == 0
    {
      cow := c;
      conversions := 0;
    }

    /** `Cow::make_mut`: an owned container is left as it is and its payload
        returned; a borrowed one is replaced by an owned one holding a `T`
        built from the reference, and that `T` is returned. */
    method MakeMut(fromRef: R -> T) returns (t: T)
      requires Valid()
      modifies this
      ensures Valid()
      ensures cow == Promote(old(cow), fromRef)
      ensures IsOwned(cow) && t == cow.t
      ensures IsOwned(old(cow)) ==> cow == old(cow) && conversions == old(conversions)
      ensures IsBorrowed(old(cow)) ==> t == fromRef(old(cow).r) && conversions == old(conversions) + 1
    {
      match cow
      case Owned(payload) =>
        t := payload;
      case Borrowed(r) =>
        t := fromRef(r);
        cow := Owned(t);
        conversions := conversions + 1;
        match cow
        case Owned(payload) =>
          t := payload;
        case Borrowed(_) =>
          // The container was made owned just above.
          assert false;
    }
  }
}
