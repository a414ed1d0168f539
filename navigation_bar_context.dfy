/**
 * The three-slot navigation bar: `setNav` replaces one slot, `resetNav`
 * blanks all three.
 */
module NavigationBarContext {

  datatype Slot = First | Second | Third

  datatype NavItems = NavItems(first: string, second: string, third: string) {

    function Get(k: Slot): string {
      match k
      case First => first
      case Second => second
      case Third => third
    }

    /** `{ ...prevItems, [key]: value }`: slot `k` becomes `v`, the other two are kept. */
    function Set(k: Slot, v: string): (r: NavItems)
      ensures r.Get(k) == v
      ensures forall j :: j != k ==> r.Get(j) == Get(j)
    {
      match k
      case First => this.(first := v)
      case Second => this.(second := v)
      case Third => this.(third := v)
    }
  }

  const InitialItems := NavItems(" ", " ", "Third")

  /** What resetNav writes: note its third slot differs from the initial "Third". */
  const BlankItems := NavItems(" ", " ", " ")

  /** Two bars that agree on every slot are the same bar. */
  lemma SlotsDetermineItems(a: NavItems, b: NavItems)
    requires forall k :: a.Get(k) == b.Get(k)
    ensures a == b
  {
    assert a.Get(First) == b.Get(First) && a.Get(Second) == b.Get(Second) && a.Get(Third) == b.Get(Third);
  }

  /** setNav twice with the same arguments is setNav once. */
  lemma SetIdempotent(items: NavItems, k: Slot, v: string)
    ensures items.Set(k, v).Set(k, v) == items.Set(k, v)
  {
    SlotsDetermineItems(items.Set(k, v).Set(k, v), items.Set(k, v));
  }

  /** setNav on two different slots commutes. */
  lemma SetCommutes(items: NavItems, k1: Slot, v1: string, k2: Slot, v2: string)
    requires k1 != k2
    ensures items.Set(k1, v1).Set(k2, v2) == items.Set(k2, v2).Set(k1, v1)
  {
    SlotsDetermineItems(items.Set(k1, v1).Set(k2, v2), items.Set(k2, v2).Set(k1, v1));
  }

  /** setNav on the same slot twice: the later value wins. */
  lemma SetLastWins(items: NavItems, k: Slot, v1: string, v2: string)
    ensures items.Set(k, v1).Set(k, v2) == items.Set(k, v2)
  {
    SlotsDetermineItems(items.Set(k, v1).Set(k, v2), items.Set(k, v2));
  }

  class NavigationBarProvider {
    var items: NavItems

    constructor ()
      ensures items == InitialItems
    {
      items := InitialItems;
    }

    method SetNav(k: Slot, v: string)
      modifies this
      ensures items == old(items).Set(k, v)
    {
      items := items.Set(k, v);
    }

    /** Idempotent: the result does not depend on the previous items. */
    method ResetNav()
      modifies this
      ensures items == BlankItems
      ensures BlankItems != InitialItems
    {
      items := NavItems(" ", " ", " ");
    }
  }
}
