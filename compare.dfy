/**
 * The compare store: at most `MaxCompareItems` products, unique by id, mirrored to local
 * storage. Adding reports success or a user-facing failure message.
 */
module Compare {
  import opened Wrappers
  import opened Text
  import opened Entities
  import opened Storage

  const MaxCompareItems: nat := 4

  /** The results `addToCompare` and `toggleCompare` return. */
  datatype Outcome =
    | Added                     // { success: true }
    | Removed                   // { success: true, action: 'removed' }
    | Rejected(message: string) // { success: false, message }
  {
    predicate Success() { !Rejected? }
  }

  /** `Maximum ${MAX_COMPARE_ITEMS} items allowed`. */
  function CapacityMessage(): (m: string)
    ensures m == "Maximum 4 items allowed"
  {
    "Maximum " + NatToString(MaxCompareItems) + " items allowed"
  }

  const DuplicateMessage := "Product already in compare list"

  /** The outcome and the new list of `addToCompare(p)`: capacity first, then duplicates. */
  function AddOutcome(items: seq<Product>, p: Product): (Outcome, seq<Product>) {
    if |items| >= MaxCompareItems then (Rejected(CapacityMessage()), items)
    else if HasProduct(items, p.id) then (Rejected(DuplicateMessage), items)
    else (Added, items + [p])
  }

  /** The outcome and the new list of `toggleCompare(p)`. */
  function ToggleOutcome(items: seq<Product>, p: Product): (Outcome, seq<Product>) {
    if HasProduct(items, p.id) then (Removed, WithoutProduct(items, p.id)) else AddOutcome(items, p)
  }

  predicate ValidList(items: seq<Product>) {
    |items| <= MaxCompareItems && UniqueIds(items)
  }

  /**
   * A full list rejects with the capacity message, even for a duplicate; otherwise a duplicate
   * is rejected with its own message; a rejection leaves the list unchanged, and a success
   * appends the product.
   */
  lemma AddOutcomeCases(items: seq<Product>, p: Product)
    ensures var (o, r) := AddOutcome(items, p);
      && (|items| >= 4 ==> o == Rejected("Maximum 4 items allowed") && r == items)
      && (|items| < 4 && HasProduct(items, p.id) ==> o == Rejected("Product already in compare list") && r == items)
      && (o.Success() <==> |items| < 4 && !HasProduct(items, p.id))
      && (o.Success() ==> o == Added && r == items + [p])
  {
  }

  /** The bound of 4 and unique ids survive add, remove, clear and toggle. */
  lemma OperationsKeepValid(items: seq<Product>, p: Product, id: int)
    requires ValidList(items)
    ensures ValidList(AddOutcome(items, p).1)
    ensures ValidList(WithoutProduct(items, id))
    ensures ValidList([])
    ensures ValidList(ToggleOutcome(items, p).1)
  {
    if |items| < MaxCompareItems && !HasProduct(items, p.id) {
      AppendKeepsUniqueIds(items, p);
    }
    WithoutProductKeepsUniqueIds(items, id);
    WithoutProductKeepsUniqueIds(items, p.id);
  }

  /** The fifth distinct product is rejected and the list stays at four. */
  lemma FifthAddRejected(items: seq<Product>, p: Product)
    requires |items| == 4
    ensures AddOutcome(items, p) == (Rejected("Maximum 4 items allowed"), items)
  {
  }

  /** Toggling removes a present product with the `removed` action; otherwise it is `addToCompare`. */
  lemma ToggleOutcomeCases(items: seq<Product>, p: Product)
    ensures HasProduct(items, p.id) ==>
      ToggleOutcome(items, p).0 == Removed && !HasProduct(ToggleOutcome(items, p).1, p.id)
    ensures !HasProduct(items, p.id) ==> ToggleOutcome(items, p) == AddOutcome(items, p)
  {
  }

  class CompareStore {
    var items: seq<Product>
    const storage: LocalStorage

    /**
     * Mount: the stored list replaces the empty initial one when a mirror exists. The backup
     * effect first writes the empty initial list, then the loaded one after the re-render, so
     * the mirror ends holding the list either way ("[]" when there was none).
     */
    constructor (storage: LocalStorage)
      modifies storage`compare
      ensures this.storage == storage
      ensures items == old(storage.compare).GetOr([])
      ensures storage.compare == Some(items)
    {
      var saved := storage.compare;
      this.storage := storage;
      items := [];
      new;
      storage.compare := Some(items);
      if saved.Some? {
        items := saved.value;
      }
      storage.compare := Some(items);
    }

    /** `isInCompare(productId)`. */
    predicate IsIn(productId: int)
      reads this
    {
      HasProduct(items, productId)
    }

    /** `compareCount`. */
    function CompareCount(): nat
      reads this
    {
      |items|
    }

    /** `addToCompare(product)`. */
    method Add(product: Product) returns (outcome: Outcome)
      modifies this`items, storage`compare
      ensures (outcome, items) == AddOutcome(old(items), product)
      ensures storage.compare == if outcome.Success() then Some(items) else old(storage.compare)
    {
      if |items| >= MaxCompareItems {
        return Rejected(CapacityMessage());
      }
      if HasProduct(items, product.id) {
        return Rejected(DuplicateMessage);
      }
      items := items + [product];
      storage.compare := Some(items);
      outcome := Added;
    }

    /** `removeFromCompare(productId)`. */
    method Remove(productId: int)
      modifies this`items, storage`compare
      ensures items == WithoutProduct(old(items), productId)
      ensures storage.compare == Some(items)
    {
      items := WithoutProduct(items, productId);
      storage.compare := Some(items);
    }

    /** `clearCompare`. */
    method Clear()
      modifies this`items, storage`compare
      ensures items == [] && storage.compare == Some([])
    {
      items := [];
      storage.compare := Some(items);
    }

    /** `toggleCompare(product)`. */
    method Toggle(product: Product) returns (outcome: Outcome)
      modifies this`items, storage`compare
      ensures (outcome, items) == ToggleOutcome(old(items), product)
      ensures storage.compare == if outcome.Success() then Some(items) else old(storage.compare)
    {
      if IsIn(product.id) {
        Remove(product.id);
        outcome := Removed;
      } else {
        outcome := Add(product);
      }
    }
  }
}
