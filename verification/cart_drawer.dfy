/**
 * The quantity and remove buttons of the cart drawer
 * (src/components/CartDrawer.tsx), which call the store for one displayed line.
 * As written they pass only the line's id, so the store looks for the key
 * `(id, {})` and never reaches a line that carries customizations.  Both the
 * handlers as written and the corrected handlers are modelled.
 */
module CartDrawer {
  import opened Wrappers
  import opened CartStore

  /** The -/+ buttons as written: the new quantity for the line's id, no customizations. */
  method ChangeQuantityAsWritten(store: Store, line: CartItem, quantity: int)
    requires store.Valid()
    modifies store
    ensures store.Valid() && store.orders == old(store.orders)
    ensures quantity <= 0 ==> store.items == RemoveKey(old(store.items), KeyOf(line.item.id, None))
    ensures quantity > 0 ==> store.items == SetQuantity(old(store.items), KeyOf(line.item.id, None), quantity)
  {
    store.UpdateQuantity(line.item.id, quantity, None);
  }

  /** The remove button as written. */
  method RemoveAsWritten(store: Store, line: CartItem)
    requires store.Valid()
    modifies store
    ensures store.Valid() && store.orders == old(store.orders)
    ensures store.items == RemoveKey(old(store.items), KeyOf(line.item.id, None))
  {
    store.RemoveItem(line.item.id, None);
  }

  /** A customized line is left untouched by the handlers as written. */
  lemma CustomizedLineUnreachedAsWritten(lines: seq<CartItem>, k: nat, quantity: int)
    requires k < |lines|
    requires lines[k].customizations.Some? && lines[k].customizations.value != NoCustomizations
    ensures SetQuantity(lines, KeyOf(lines[k].item.id, None), quantity)[k] == lines[k]
    ensures lines[k] in RemoveKey(lines, KeyOf(lines[k].item.id, None))
  {
    RemoveKeyKeeps(lines, KeyOf(lines[k].item.id, None), k);
  }

  /**
   * What the buttons as written hit instead: a plain line of the same id.
   * Pressing - on a customized line of quantity 1 removes that plain line.
   */
  lemma PlainLineHitInstead(lines: seq<CartItem>, k: nat, j: nat, quantity: int)
    requires k < |lines| && j < |lines|
    requires lines[j].item.id == lines[k].item.id && lines[j].customizations.None?
    ensures SetQuantity(lines, KeyOf(lines[k].item.id, None), quantity)[j] == lines[j].(quantity := quantity)
    ensures lines[j] !in RemoveKey(lines, KeyOf(lines[k].item.id, None))
  {
  }

  /** The -/+ buttons corrected: the line's own customizations go with its id. */
  method ChangeQuantity(store: Store, line: CartItem, quantity: int)
    requires store.Valid()
    modifies store
    ensures store.Valid() && store.orders == old(store.orders)
    ensures quantity <= 0 ==> store.items == RemoveKey(old(store.items), LineKey(line))
    ensures quantity > 0 ==> store.items == SetQuantity(old(store.items), LineKey(line), quantity)
  {
    store.UpdateQuantity(line.item.id, quantity, line.customizations);
  }

  /** The remove button corrected. */
  method Remove(store: Store, line: CartItem)
    requires store.Valid()
    modifies store
    ensures store.Valid() && store.orders == old(store.orders)
    ensures store.items == RemoveKey(old(store.items), LineKey(line))
  {
    store.RemoveItem(line.item.id, line.customizations);
  }

  /**
   * With the line's own key every displayed line is reached: a positive
   * quantity lands on it, and removal takes out exactly that line when the
   * cart's keys are distinct.
   */
  lemma OwnKeyReachesLine(lines: seq<CartItem>, k: nat, quantity: int)
    requires k < |lines|
    ensures SetQuantity(lines, LineKey(lines[k]), quantity)[k].quantity == quantity
    ensures lines[k] !in RemoveKey(lines, LineKey(lines[k]))
    ensures DistinctKeys(lines) ==> RemoveKey(lines, LineKey(lines[k])) == lines[..k] + lines[k + 1..]
  {
    if DistinctKeys(lines) {
      DistinctKeysAt(lines, k);
      RemoveKeyOfDistinct(lines, k);
    }
  }
}
