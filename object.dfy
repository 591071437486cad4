/** The parts of the kernel-object layer that a channel relies on: the
    identity every kernel object receives when its base is built, the
    rights a handle carries, and the handle itself. The definitions of
    `KObjectBase`, `Rights` and `Handle` are not part of this model; only
    the behaviour the channel code and its test observe is stated here. */
module Object {

  /** The common base of every kernel object; it holds the object's id. */
  datatype KObjectBase = KObjectBase(id: nat)

  /** The source of kernel-object ids behind `KObjectBase::new()`. It is a
      counter that every new base advances; the first id it hands out is 0.
      `Issued` records every id handed out so far. */
  class KoidAllocator {
    var next: nat
    ghost var Issued: set<nat>

    /** Every id already handed out lies below the counter. */
    ghost predicate Valid()
      reads this
    {
      forall id :: id in Issued ==> id < next
    }

    constructor ()
      ensures Valid()
      ensures next == 0 && Issued == {}
    {
      next := 0;
      Issued := {};
    }

    /** `KObjectBase::new()`: a base whose id is the counter's value, which
        no earlier base received; the counter moves past it. */
    method NewBase() returns (base: KObjectBase)
      requires Valid()
      modifies this
      ensures Valid()
      ensures base.id == old(next) && next == old(next) + 1
      ensures base.id !in old(Issued) && Issued == old(Issued) + {base.id}
    {
      base := KObjectBase(next);
      Issued := Issued + {next};
      next := next + 1;
    }
  }

  /** The rights a handle may carry. Only the right the channel code grants
      is modelled. */
  datatype Right = Duplicate

  type Rights = set<Right>

  /** `Rights::DUPLICATE`. */
  const DUPLICATE: Rights := {Duplicate}

  /** A rights-qualified reference to a kernel object. */
  datatype Handle<T> = Handle(kobject: T, rights: Rights)
}
