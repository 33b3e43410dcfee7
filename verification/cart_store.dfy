/**
 * The cart/order store of the canteen front end (src/store/useCartStore.ts).
 *
 * The store owns two pieces of state, the cart lines `items` and the order
 * history `orders`; every operation replaces one or both of them.  The new
 * sequences the operations build (the source's `map`, `filter` and spread
 * expressions) are the functions of this module; the operations themselves are
 * the methods of class `Store`.
 */
module CartStore {
  import opened Wrappers

  // ---------------------------------------------------------------------------
  // Data model
  // ---------------------------------------------------------------------------

  datatype Category = Snacks | MainCourse | Beverages

  datatype SpiceLevel = Low | Medium | High | Mild | Spicy
  datatype PortionSize = Regular | Large | Half | Full
  datatype IceLevel = NoIce | NormalIce | ExtraIce
  datatype SugarLevel = NoSugar | LessSugar | NormalSugar | ExtraSugar
  datatype CupSize = SmallCup | MediumCup | LargeCup

  /** A catalog entry; prices are whole rupees. */
  datatype MenuItem = MenuItem(
    id: string,
    name: string,
    description: string,
    price: int,
    image: string,
    category: Category,
    isVeg: bool)

  /**
   * The customization mapping of a cart line.  Every option is optional: an
   * absent property is `None`.  Equality of two values is field-by-field, which
   * is what comparing the serialised mappings is meant to decide.
   */
  datatype Customizations = Customizations(
    // snacks
    spiceLevel: Option<SpiceLevel>,
    addCheese: Option<bool>,
    noOnion: Option<bool>,
    extraChilli: Option<bool>,
    sauces: Option<seq<string>>,
    portionSize: Option<PortionSize>,
    // main course
    excludeIngredients: Option<seq<string>>,
    addExtraGravy: Option<bool>,
    addOns: Option<seq<string>>,
    addRaitaPapad: Option<seq<string>>,
    // beverages
    iceLevel: Option<IceLevel>,
    sugarLevel: Option<SugarLevel>,
    addLemon: Option<bool>,
    addMintGinger: Option<seq<string>>,
    cupSize: Option<CupSize>,
    toppings: Option<seq<string>>)

  /** The empty mapping `{}`. */
  const NoCustomizations: Customizations :=
    Customizations(None, None, None, None, None, None, None, None,
                   None, None, None, None, None, None, None, None)

  /** A menu item in the cart, with its quantity and optional customization data. */
  datatype CartItem = CartItem(
    item: MenuItem,
    quantity: int,
    customizations: Option<Customizations>,
    customizationPrice: Option<int>)

  datatype Status = Preparing | Ready | Completed

  /** A placed order: a frozen copy of the cart and of its total. */
  datatype Order = Order(
    id: string,
    orderId: string,
    items: seq<CartItem>,
    total: int,
    timestamp: int,
    status: Status,
    placedAt: string)

  predicate PositiveQuantities(lines: seq<CartItem>) {
    forall i :: 0 <= i < |lines| ==> lines[i].quantity >= 1
  }

  // ---------------------------------------------------------------------------
  // Order identifiers
  // ---------------------------------------------------------------------------

  /** `toUpperCase` on one character; only ASCII letters are modelled. */
  function UpperChar(c: char): (r: char)
    ensures !('a' <= r <= 'z')
    ensures !('a' <= c <= 'z') ==> r == c
    ensures 'a' <= c <= 'z' ==> 'A' <= r <= 'Z' && r as int - 'A' as int == c as int - 'a' as int
  {
    if 'a' <= c <= 'z' then (c as int - 'a' as int + 'A' as int) as char else c
  }

  function Upper(s: string): (r: string)
    ensures |r| == |s|
    ensures forall i :: 0 <= i < |s| ==> r[i] == UpperChar(s[i])
  {
    if s == [] then [] else [UpperChar(s[0])] + Upper(s[1..])
  }

  /** `s.substr(start, length)` for non-negative arguments. */
  function Substr(s: string, start: nat, length: nat): (r: string)
    ensures |r| == (if |s| <= start then 0 else if start + length <= |s| then length else |s| - start)
    ensures forall i :: 0 <= i < |r| ==> r[i] == s[start + i]
  {
    if |s| <= start then []
    else if start + length <= |s| then s[start..start + length]
    else s[start..]
  }

  /**
   * `generateOrderId`: `"ORD"` followed by characters 2 to 10 of the base-36
   * text of a random number, upper-cased.  The random text is a parameter.
   */
  function GenerateOrderId(randomText: string): (r: string)
    ensures 3 <= |r| <= 12 && r[..3] == "ORD"
    ensures forall i :: 3 <= i < |r| ==> !('a' <= r[i] <= 'z')
    ensures |r| == 3 + (if |randomText| <= 2 then 0 else if |randomText| >= 11 then 9 else |randomText| - 2)
    ensures forall i :: 3 <= i < |r| ==> i - 1 < |randomText| && r[i] == UpperChar(randomText[i - 1])
  {
    var digits := Substr(randomText, 2, 9);
    assert |digits| > 0 ==> |randomText| >= 2 + |digits|;
    "ORD" + Upper(digits)
  }

  // ---------------------------------------------------------------------------
  // Line identity
  // ---------------------------------------------------------------------------

  /** The composite identity of a cart line. */
  datatype Key = Key(id: string, customizations: Customizations)

  /** `getCartItemKey`: an absent customization mapping counts as `{}`. */
  function KeyOf(id: string, customizations: Option<Customizations>): (k: Key)
    ensures k.id == id
    ensures customizations.None? ==> k.customizations == NoCustomizations
    ensures customizations.Some? ==> k.customizations == customizations.value
  {
    Key(id, customizations.GetOr(NoCustomizations))
  }

  /** The key of a stored line, `getCartItemKey(cartItem, cartItem.customizations)`. */
  function LineKey(line: CartItem): (k: Key)
    ensures k.id == line.item.id
    ensures k.customizations == line.customizations.GetOr(NoCustomizations)
  {
    KeyOf(line.item.id, line.customizations)
  }

  /** Two keys agree exactly when the ids and the customizations (absent read as `{}`) agree. */
  lemma KeyIdentity(id1: string, c1: Option<Customizations>, id2: string, c2: Option<Customizations>)
    ensures KeyOf(id1, c1) == KeyOf(id2, c2) <==>
            id1 == id2 && c1.GetOr(NoCustomizations) == c2.GetOr(NoCustomizations)
    ensures KeyOf(id1, None) == KeyOf(id1, Some(NoCustomizations))
  {
  }

  predicate DistinctKeys(lines: seq<CartItem>) {
    forall i, j :: 0 <= i < j < |lines| ==> LineKey(lines[i]) != LineKey(lines[j])
  }

  /** With distinct keys, line `k` is the only line with its key. */
  lemma DistinctKeysAt(lines: seq<CartItem>, k: nat)
    requires DistinctKeys(lines) && k < |lines|
    ensures forall i :: 0 <= i < |lines| && i != k ==> LineKey(lines[i]) != LineKey(lines[k])
  {
    forall i | 0 <= i < |lines| && i != k ensures LineKey(lines[i]) != LineKey(lines[k]) {
      if i < k {
        assert LineKey(lines[i]) != LineKey(lines[k]);
      } else {
        assert LineKey(lines[k]) != LineKey(lines[i]);
      }
    }
  }

  /** Appending a line whose key is new keeps the keys distinct. */
  lemma AppendKeepsDistinct(lines: seq<CartItem>, line: CartItem)
    requires DistinctKeys(lines)
    requires forall i :: 0 <= i < |lines| ==> LineKey(lines[i]) != LineKey(line)
    ensures DistinctKeys(lines + [line])
  {
    var r := lines + [line];
    forall i, j | 0 <= i < j < |r| ensures LineKey(r[i]) != LineKey(r[j]) {
      assert r[i] == lines[i];
      if j < |lines| {
        assert r[j] == lines[j];
      }
    }
  }

  /** No line carries an explicitly empty customization mapping `{}`. */
  predicate NoEmptyMappings(lines: seq<CartItem>) {
    forall i :: 0 <= i < |lines| ==> lines[i].customizations != Some(NoCustomizations)
  }

  // ---------------------------------------------------------------------------
  // Searching
  // ---------------------------------------------------------------------------

  /** The two searches the store performs with `findIndex`. */
  datatype Criterion =
    | PlainLineOf(id: string)    // same id and no customization mapping at all
    | LineWithKey(key: Key)      // same composite key

  /**
   * The `findIndex` callbacks.  A plain match is a key match with the key
   * `(id, {})`, but not every line with that key matches plainly: a line
   * stored with `{}` is skipped.
   */
  function Matches(c: Criterion, line: CartItem): (b: bool)
    ensures c.PlainLineOf? ==> (b <==> LineKey(line) == KeyOf(c.id, None) && line.customizations.None?)
  {
    match c
    case PlainLineOf(id) => line.item.id == id && line.customizations.None?
    case LineWithKey(key) => LineKey(line) == key
  }

  /** `findIndex`: the first index whose line matches, or -1 when none does. */
  function FindIndex(lines: seq<CartItem>, c: Criterion): (r: int)
    ensures -1 <= r < |lines|
    ensures r == -1 <==> forall i :: 0 <= i < |lines| ==> !Matches(c, lines[i])
    ensures 0 <= r ==> Matches(c, lines[r]) && forall i :: 0 <= i < r ==> !Matches(c, lines[i])
  {
    if lines == [] then -1
    else if Matches(c, lines[0]) then 0
    else
      var k := FindIndex(lines[1..], c);
      if k < 0 then -1 else k + 1
  }

  // ---------------------------------------------------------------------------
  // Totals
  // ---------------------------------------------------------------------------

  /** The per-unit price of a line: base price plus the customization price (absent is 0). */
  function UnitPrice(line: CartItem): int {
    line.item.price + line.customizationPrice.GetOr(0)
  }

  /** What one line adds to the cart total: base part plus customization part. */
  function LineTotal(line: CartItem): (r: int)
    ensures r == UnitPrice(line) * line.quantity
  {
    line.item.price * line.quantity + line.customizationPrice.GetOr(0) * line.quantity
  }

  /** `getTotalItems`: the left-to-right sum of the quantities. */
  function TotalItems(lines: seq<CartItem>): (r: int)
    ensures PositiveQuantities(lines) ==> r >= |lines|
  {
    if lines == [] then 0
    else
      var init := lines[..|lines| - 1];
      assert PositiveQuantities(lines) ==> PositiveQuantities(init) by {
        forall i | 0 <= i < |init| ensures init[i] == lines[i] { }
      }
      TotalItems(init) + lines[|lines| - 1].quantity
  }

  /** `getTotalPrice`: the left-to-right sum of the line totals. */
  function TotalPrice(lines: seq<CartItem>): (r: int)
    ensures (forall i :: 0 <= i < |lines| ==> lines[i].quantity >= 0 && UnitPrice(lines[i]) >= 0) ==> r >= 0
  {
    if lines == [] then 0
    else
      var init := lines[..|lines| - 1];
      var last := lines[|lines| - 1];
      assert last.quantity >= 0 && UnitPrice(last) >= 0 ==> LineTotal(last) >= 0;
      TotalPrice(init) + LineTotal(last)
  }

  /** Both totals distribute over concatenation of carts. */
  lemma {:induction false} TotalsAppend(a: seq<CartItem>, b: seq<CartItem>)
    ensures TotalItems(a + b) == TotalItems(a) + TotalItems(b)
    ensures TotalPrice(a + b) == TotalPrice(a) + TotalPrice(b)
    decreases |b|
  {
    if b == [] {
      assert a + b == a;
    } else {
      var init := b[..|b| - 1];
      assert (a + b)[..|a + b| - 1] == a + init;
      assert (a + b)[|a + b| - 1] == b[|b| - 1];
      TotalsAppend(a, init);
    }
  }

  /** Replacing one line changes each total by the difference of that line's contribution. */
  lemma TotalsAt(lines: seq<CartItem>, k: nat, line: CartItem)
    requires k < |lines|
    ensures TotalItems(lines[k := line]) == TotalItems(lines) - lines[k].quantity + line.quantity
    ensures TotalPrice(lines[k := line]) == TotalPrice(lines) - LineTotal(lines[k]) + LineTotal(line)
  {
    var pre, post := lines[..k], lines[k + 1..];
    assert lines == pre + [lines[k]] + post;
    assert lines[k := line] == pre + [line] + post;
    TotalsAppend(pre + [lines[k]], post);
    TotalsAppend(pre, [lines[k]]);
    TotalsAppend(pre + [line], post);
    TotalsAppend(pre, [line]);
    assert [lines[k]][..0] == [] && [line][..0] == [];
  }

  // ---------------------------------------------------------------------------
  // The new carts the operations build
  // ---------------------------------------------------------------------------

  /** Replacing a line by one with the same key keeps every key, and so distinctness. */
  lemma ReplaceKeepsKeys(lines: seq<CartItem>, k: nat, line: CartItem)
    requires k < |lines| && LineKey(line) == LineKey(lines[k])
    ensures forall i :: 0 <= i < |lines| ==> LineKey(lines[k := line][i]) == LineKey(lines[i])
    ensures DistinctKeys(lines) ==> DistinctKeys(lines[k := line])
  {
  }

  /** One more unit on line `k` adds one to the item count and its unit price to the total. */
  lemma BumpedTotals(lines: seq<CartItem>, k: nat)
    requires k < |lines|
    ensures var r := lines[k := lines[k].(quantity := lines[k].quantity + 1)];
            TotalItems(r) == TotalItems(lines) + 1 && TotalPrice(r) == TotalPrice(lines) + UnitPrice(lines[k])
  {
    var line := lines[k].(quantity := lines[k].quantity + 1);
    TotalsAt(lines, k, line);
    BumpedLineTotal(lines[k]);
  }

  /** One more unit adds one unit price to a line's total. */
  lemma BumpedLineTotal(line: CartItem)
    ensures LineTotal(line.(quantity := line.quantity + 1)) == LineTotal(line) + UnitPrice(line)
  {
    var u, q := UnitPrice(line), line.quantity;
    assert u * (q + 1) == u * q + u;
  }

  /** Appending a line adds its quantity and its line total. */
  lemma AppendTotals(lines: seq<CartItem>, line: CartItem)
    ensures TotalItems(lines + [line]) == TotalItems(lines) + line.quantity
    ensures TotalPrice(lines + [line]) == TotalPrice(lines) + LineTotal(line)
    ensures line.quantity == 1 ==> TotalPrice(lines + [line]) == TotalPrice(lines) + UnitPrice(line)
  {
    TotalsAppend(lines, [line]);
    assert [line][..0] == [];
  }

  /** The cart with line `k`'s quantity raised by one (the `map` of `addItem`). */
  function Bumped(lines: seq<CartItem>, k: nat): (r: seq<CartItem>)
    requires k < |lines|
    ensures |r| == |lines| && r[k] == lines[k].(quantity := lines[k].quantity + 1)
    ensures forall i :: 0 <= i < |lines| && i != k ==> r[i] == lines[i]
    ensures forall i :: 0 <= i < |lines| ==> LineKey(r[i]) == LineKey(lines[i])
    ensures TotalItems(r) == TotalItems(lines) + 1
    ensures TotalPrice(r) == TotalPrice(lines) + UnitPrice(lines[k])
    ensures DistinctKeys(lines) ==> DistinctKeys(r)
  {
    var line := lines[k].(quantity := lines[k].quantity + 1);
    BumpedTotals(lines, k);
    ReplaceKeepsKeys(lines, k, line);
    lines[k := line]
  }

  /** The cart with `line` added at the end, and what that does to the totals and keys. */
  function Appended(lines: seq<CartItem>, line: CartItem): (r: seq<CartItem>)
    ensures r == lines + [line]
    ensures TotalItems(r) == TotalItems(lines) + line.quantity
    ensures line.quantity == 1 ==> TotalPrice(r) == TotalPrice(lines) + UnitPrice(line)
    ensures PositiveQuantities(lines) && line.quantity >= 1 ==> PositiveQuantities(r)
    ensures DistinctKeys(lines) && (forall i :: 0 <= i < |lines| ==> LineKey(lines[i]) != LineKey(line))
            ==> DistinctKeys(r)
  {
    AppendTotals(lines, line);
    assert DistinctKeys(lines) && (forall i :: 0 <= i < |lines| ==> LineKey(lines[i]) != LineKey(line))
           ==> DistinctKeys(lines + [line]) by {
      if DistinctKeys(lines) && (forall i :: 0 <= i < |lines| ==> LineKey(lines[i]) != LineKey(line)) {
        AppendKeepsDistinct(lines, line);
      }
    }
    lines + [line]
  }

  /**
   * The cart `addItem` builds: one more unit on the first line of the same id
   * that has no customization mapping at all, or a new plain line at the end.
   */
  function AddPlain(lines: seq<CartItem>, item: MenuItem): (r: seq<CartItem>)
    ensures var k := FindIndex(lines, PlainLineOf(item.id));
            && (k >= 0 ==> |r| == |lines| && r[k] == lines[k].(quantity := lines[k].quantity + 1) &&
                           forall i :: 0 <= i < |lines| && i != k ==> r[i] == lines[i])
            && (k < 0 ==> r == lines + [CartItem(item, 1, None, None)])
    ensures TotalItems(r) == TotalItems(lines) + 1
    ensures var k := FindIndex(lines, PlainLineOf(item.id));
            TotalPrice(r) == TotalPrice(lines) + (if k >= 0 then UnitPrice(lines[k]) else item.price)
    ensures PositiveQuantities(lines) ==> PositiveQuantities(r)
    ensures DistinctKeys(lines) && NoEmptyMappings(lines) ==> DistinctKeys(r)
  {
    var k := FindIndex(lines, PlainLineOf(item.id));
    if k >= 0 then Bumped(lines, k)
    else
      var line := CartItem(item, 1, None, None);
      assert NoEmptyMappings(lines) ==> forall i :: 0 <= i < |lines| ==> LineKey(lines[i]) != LineKey(line) by {
        if NoEmptyMappings(lines) {
          forall i | 0 <= i < |lines| ensures LineKey(lines[i]) != LineKey(line) {
            assert !Matches(PlainLineOf(item.id), lines[i]);
          }
        }
      }
      Appended(lines, line)
  }

  /**
   * The cart `addItemWithCustomization` builds: one more unit on the first line
   * with the same key, or a new customized line at the end whose customization
   * price is `extraPrice` (0 when not given).
   */
  function AddCustomized(lines: seq<CartItem>, item: MenuItem, customizations: Customizations,
                         extraPrice: Option<int>): (r: seq<CartItem>)
    ensures var k := FindIndex(lines, LineWithKey(KeyOf(item.id, Some(customizations))));
            && (k >= 0 ==> |r| == |lines| && r[k] == lines[k].(quantity := lines[k].quantity + 1) &&
                           forall i :: 0 <= i < |lines| && i != k ==> r[i] == lines[i])
            && (k < 0 ==> r == lines + [CartItem(item, 1, Some(customizations), Some(extraPrice.GetOr(0)))])
    ensures TotalItems(r) == TotalItems(lines) + 1
    ensures var k := FindIndex(lines, LineWithKey(KeyOf(item.id, Some(customizations))));
            TotalPrice(r) == TotalPrice(lines) + (if k >= 0 then UnitPrice(lines[k]) else item.price + extraPrice.GetOr(0))
    ensures PositiveQuantities(lines) ==> PositiveQuantities(r)
    ensures DistinctKeys(lines) ==> DistinctKeys(r)
    ensures exists i :: 0 <= i < |r| && LineKey(r[i]) == KeyOf(item.id, Some(customizations))
  {
    var key := KeyOf(item.id, Some(customizations));
    var k := FindIndex(lines, LineWithKey(key));
    if k >= 0 then
      var r := Bumped(lines, k);
      assert LineKey(r[k]) == key;
      r
    else
      var line := CartItem(item, 1, Some(customizations), Some(extraPrice.GetOr(0)));
      var r := Appended(lines, line);
      assert LineKey(r[|lines|]) == key;
      r
  }

  /** The `map` of `updateQuantity`: every line with the key gets the absolute quantity. */
  function SetQuantity(lines: seq<CartItem>, key: Key, quantity: int): (r: seq<CartItem>)
    ensures |r| == |lines|
    ensures forall i :: 0 <= i < |lines| ==>
              r[i] == if LineKey(lines[i]) == key then lines[i].(quantity := quantity) else lines[i]
    ensures (forall i :: 0 <= i < |lines| ==> LineKey(lines[i]) != key) ==> r == lines
  {
    if lines == [] then []
    else
      var head := if LineKey(lines[0]) == key then lines[0].(quantity := quantity) else lines[0];
      [head] + SetQuantity(lines[1..], key, quantity)
  }

  /** The `filter` of `removeItem`: drop every line with the key. */
  function RemoveKey(lines: seq<CartItem>, key: Key): (r: seq<CartItem>)
    ensures |r| <= |lines|
    ensures forall i :: 0 <= i < |r| ==> LineKey(r[i]) != key && r[i] in lines
    ensures (forall i :: 0 <= i < |lines| ==> LineKey(lines[i]) != key) ==> r == lines
  {
    if lines == [] then []
    else (if LineKey(lines[0]) == key then [] else [lines[0]]) + RemoveKey(lines[1..], key)
  }

  /** Removal keeps the order of the remaining lines: it distributes over concatenation. */
  lemma {:induction false} RemoveKeyAppend(a: seq<CartItem>, b: seq<CartItem>, key: Key)
    ensures RemoveKey(a + b, key) == RemoveKey(a, key) + RemoveKey(b, key)
  {
    if a != [] {
      var head := if LineKey(a[0]) == key then [] else [a[0]];
      assert (a + b)[0] == a[0];
      assert (a + b)[1..] == a[1..] + b;
      assert RemoveKey(a + b, key) == head + RemoveKey(a[1..] + b, key);
      RemoveKeyAppend(a[1..], b, key);
      assert RemoveKey(a, key) == head + RemoveKey(a[1..], key);
    } else {
      assert a + b == b;
    }
  }

  /** Every line without the key survives removal. */
  lemma {:induction false} RemoveKeyKeeps(lines: seq<CartItem>, key: Key, i: nat)
    requires i < |lines| && LineKey(lines[i]) != key
    ensures lines[i] in RemoveKey(lines, key)
  {
    if i > 0 {
      RemoveKeyKeeps(lines[1..], key, i - 1);
    }
  }

  /** Removing twice is removing once. */
  lemma RemoveKeyIdempotent(lines: seq<CartItem>, key: Key)
    ensures RemoveKey(RemoveKey(lines, key), key) == RemoveKey(lines, key)
  {
  }

  /** Removal never creates a duplicate key. */
  lemma {:induction false} RemoveKeyKeepsDistinct(lines: seq<CartItem>, key: Key)
    requires DistinctKeys(lines)
    ensures DistinctKeys(RemoveKey(lines, key))
  {
    if lines != [] {
      var tail := lines[1..];
      assert DistinctKeys(tail) by {
        forall i, j | 0 <= i < j < |tail| ensures LineKey(tail[i]) != LineKey(tail[j]) {
          assert tail[i] == lines[i + 1] && tail[j] == lines[j + 1];
        }
      }
      RemoveKeyKeepsDistinct(tail, key);
      var rest := RemoveKey(tail, key);
      forall j | 0 <= j < |rest| ensures LineKey(rest[j]) != LineKey(lines[0]) {
        assert rest[j] in tail;
        var m :| 0 <= m < |tail| && tail[m] == rest[j];
        assert tail[m] == lines[m + 1];
      }
    }
  }

  /** Removing a key that only line `k` carries removes exactly that line. */
  lemma {:induction false} RemoveKeyOfDistinct(lines: seq<CartItem>, k: nat)
    requires k < |lines|
    requires forall i :: 0 <= i < |lines| && i != k ==> LineKey(lines[i]) != LineKey(lines[k])
    ensures RemoveKey(lines, LineKey(lines[k])) == lines[..k] + lines[k + 1..]
  {
    var key, tail := LineKey(lines[k]), lines[1..];
    if k == 0 {
      forall i | 0 <= i < |tail| ensures LineKey(tail[i]) != key {
        assert tail[i] == lines[i + 1];
      }
    } else {
      forall i | 0 <= i < |tail| && i != k - 1 ensures LineKey(tail[i]) != LineKey(tail[k - 1]) {
        assert tail[i] == lines[i + 1];
      }
      RemoveKeyOfDistinct(tail, k - 1);
      assert lines[..k] == [lines[0]] + tail[..k - 1];
      assert lines[k + 1..] == tail[k..];
    }
  }

  /** With distinct keys, removing line `k` takes its contribution off both totals. */
  lemma RemovedTotals(lines: seq<CartItem>, k: nat)
    requires DistinctKeys(lines) && k < |lines|
    ensures TotalItems(RemoveKey(lines, LineKey(lines[k]))) == TotalItems(lines) - lines[k].quantity
    ensures TotalPrice(RemoveKey(lines, LineKey(lines[k]))) == TotalPrice(lines) - LineTotal(lines[k])
  {
    DistinctKeysAt(lines, k);
    RemoveKeyOfDistinct(lines, k);
    var pre, post := lines[..k], lines[k + 1..];
    assert lines == (pre + [lines[k]]) + post;
    TotalsAppend(pre + [lines[k]], post);
    TotalsAppend(pre, [lines[k]]);
    TotalsAppend(pre, post);
    assert [lines[k]][..0] == [];
  }

  /**
   * With distinct keys, setting the quantity by a line's own key changes that
   * line alone, and the totals move by the difference in its quantity.
   */
  lemma SetQuantityOfDistinct(lines: seq<CartItem>, k: nat, quantity: int)
    requires DistinctKeys(lines) && k < |lines|
    ensures SetQuantity(lines, LineKey(lines[k]), quantity) == lines[k := lines[k].(quantity := quantity)]
    ensures TotalItems(SetQuantity(lines, LineKey(lines[k]), quantity)) == TotalItems(lines) - lines[k].quantity + quantity
    ensures TotalPrice(SetQuantity(lines, LineKey(lines[k]), quantity))
            == TotalPrice(lines) - LineTotal(lines[k]) + UnitPrice(lines[k]) * quantity
  {
    DistinctKeysAt(lines, k);
    var line := lines[k].(quantity := quantity);
    var r := SetQuantity(lines, LineKey(lines[k]), quantity);
    forall i | 0 <= i < |lines| ensures r[i] == lines[k := line][i] {
      if i != k {
        assert LineKey(lines[i]) != LineKey(lines[k]);
      }
    }
    assert UnitPrice(line) == UnitPrice(lines[k]);
    TotalsAt(lines, k, line);
  }

  /**
   * Adding an item with other customizations than an existing line's leaves
   * that line as it was, and a line with the new key is present: the two
   * stay separate lines.
   */
  lemma DifferentCustomizationsStaySeparate(lines: seq<CartItem>, k: nat, item: MenuItem,
                                            customizations: Customizations, extraPrice: Option<int>)
    requires k < |lines| && LineKey(lines[k]) != KeyOf(item.id, Some(customizations))
    ensures var r := AddCustomized(lines, item, customizations, extraPrice);
            k < |r| && r[k] == lines[k] &&
            exists i :: 0 <= i < |r| && i != k && LineKey(r[i]) == KeyOf(item.id, Some(customizations))
  {
    var key := KeyOf(item.id, Some(customizations));
    var r := AddCustomized(lines, item, customizations, extraPrice);
    var j := FindIndex(lines, LineWithKey(key));
    if j >= 0 {
      assert LineKey(r[j]) == key;
    } else {
      assert LineKey(r[|lines|]) == key;
    }
  }

  /** The `map` of `updateOrderStatus`: every order with the id gets the status. */
  function WithStatus(orders: seq<Order>, orderId: string, status: Status): (r: seq<Order>)
    ensures |r| == |orders|
    ensures forall i :: 0 <= i < |orders| ==>
              r[i] == orders[i].(status := if orders[i].orderId == orderId then status else orders[i].status)
    ensures (forall i :: 0 <= i < |orders| ==> orders[i].orderId != orderId) ==> r == orders
  {
    if orders == [] then []
    else
      var head := if orders[0].orderId == orderId then orders[0].(status := status) else orders[0];
      [head] + WithStatus(orders[1..], orderId, status)
  }

  /** Only the last status written to an order survives. */
  lemma WithStatusLastWins(orders: seq<Order>, orderId: string, first: Status, second: Status)
    ensures WithStatus(WithStatus(orders, orderId, first), orderId, second) == WithStatus(orders, orderId, second)
  {
  }

  // ---------------------------------------------------------------------------
  // The store
  // ---------------------------------------------------------------------------

  class Store {
    var items: seq<CartItem>
    var orders: seq<Order>

    /** Every line in the cart and in every placed order has a positive quantity. */
    ghost predicate Valid()
      reads this
    {
      PositiveQuantities(items) && forall i :: 0 <= i < |orders| ==> PositiveQuantities(orders[i].items)
    }

    constructor ()
      ensures Valid() && items == [] && orders == []
    {
      items := [];
      orders := [];
    }

    /** `addItem`: one more unit of an uncustomized menu item. */
    method AddItem(item: MenuItem)
      requires Valid()
      modifies this
      ensures Valid() && orders == old(orders)
      ensures items == AddPlain(old(items), item)
    {
      items := AddPlain(items, item);
    }

    /** `addItemWithCustomization`: merge by full key, or append a new customized line. */
    method AddItemWithCustomization(item: MenuItem, customizations: Customizations, extraPrice: Option<int>)
      requires Valid()
      modifies this
      ensures Valid() && orders == old(orders)
      ensures items == AddCustomized(old(items), item, customizations, extraPrice)
    {
      items := AddCustomized(items, item, customizations, extraPrice);
    }

    /** `removeItem`: drop every line whose key is `(id, customizations)`. */
    method RemoveItem(id: string, customizations: Option<Customizations>)
      requires Valid()
      modifies this
      ensures Valid() && orders == old(orders)
      ensures items == RemoveKey(old(items), KeyOf(id, customizations))
      ensures DistinctKeys(old(items)) ==> DistinctKeys(items)
    {
      var key := KeyOf(id, customizations);
      if DistinctKeys(items) {
        RemoveKeyKeepsDistinct(items, key);
      }
      var r := RemoveKey(items, key);
      assert forall i :: 0 <= i < |r| ==> r[i] in items;
      items := r;
    }

    /** `updateQuantity`: a non-positive quantity removes the line; otherwise it is set outright. */
    method UpdateQuantity(id: string, quantity: int, customizations: Option<Customizations>)
      requires Valid()
      modifies this
      ensures Valid() && orders == old(orders)
      ensures quantity <= 0 ==> items == RemoveKey(old(items), KeyOf(id, customizations))
      ensures quantity > 0 ==> items == SetQuantity(old(items), KeyOf(id, customizations), quantity)
      ensures DistinctKeys(old(items)) ==> DistinctKeys(items)
    {
      if quantity <= 0 {
        RemoveItem(id, customizations);
        return;
      }
      var key := KeyOf(id, customizations);
      items := SetQuantity(items, key, quantity);
    }

    /** `clearCart`. */
    method ClearCart()
      requires Valid()
      modifies this
      ensures Valid() && orders == old(orders)
      ensures items == [] && TotalItems(items) == 0 && TotalPrice(items) == 0
    {
      items := [];
    }

    /**
     * `placeOrder`: snapshot the cart into a new order at the head of the
     * history and empty the cart.  The clock readings (`Date.now()` twice and
     * the ISO time) and the base-36 random text are parameters.
     */
    method PlaceOrder(now: string, timestamp: int, placedAt: string, randomText: string)
      returns (orderId: string)
      requires Valid()
      modifies this
      ensures Valid()
      ensures orderId == GenerateOrderId(randomText) && orderId[..3] == "ORD"
      ensures items == []
      ensures |orders| == |old(orders)| + 1 && orders[1..] == old(orders)
      ensures orders[0] == Order(now, orderId, old(items), old(TotalPrice(items)), timestamp, Preparing, placedAt)
    {
      var total := TotalPrice(items);
      orderId := GenerateOrderId(randomText);
      var newOrder := Order(now, orderId, items, total, timestamp, Preparing, placedAt);
      orders := [newOrder] + orders;
      items := [];
    }

    /** `updateOrderStatus`: rewrite the status of every order with the id. */
    method UpdateOrderStatus(orderId: string, status: Status)
      requires Valid()
      modifies this
      ensures Valid() && items == old(items)
      ensures orders == WithStatus(old(orders), orderId, status)
    {
      var r := WithStatus(orders, orderId, status);
      assert forall i :: 0 <= i < |r| ==> r[i].items == orders[i].items && orders[i] in orders;
      orders := r;
    }

    /**
     * The scheduled callback `placeOrder` sets up: when it fires, the order is
     * moved to `ready` whatever its status is at that moment.
     */
    method ReadyTimerFires(orderId: string)
      requires Valid()
      modifies this
      ensures Valid() && items == old(items)
      ensures orders == WithStatus(old(orders), orderId, Ready)
    {
      UpdateOrderStatus(orderId, Ready);
    }
  }
}
