/**
 * The pricing and selection logic of the customization dialog
 * (src/components/CustomizationModal.tsx): the price delta of the chosen
 * options, the add/remove toggle of multi-select options, and the projection of
 * the options onto the fields of the item's category that is handed to the
 * cart store.
 */
module Customization {
  import opened Wrappers
  import opened CartStore

  /**
   * The dialog's option state.  Every field starts from a default and is only
   * ever replaced by another value, so none is ever absent.
   */
  datatype Options = Options(
    // snacks
    spiceLevel: SpiceLevel,
    addCheese: bool,
    noOnion: bool,
    extraChilli: bool,
    sauces: seq<string>,
    portionSize: PortionSize,
    // main course
    excludeIngredients: seq<string>,
    addExtraGravy: bool,
    addOns: seq<string>,
    addRaitaPapad: seq<string>,
    // beverages
    iceLevel: IceLevel,
    sugarLevel: SugarLevel,
    addLemon: bool,
    addMintGinger: seq<string>,
    cupSize: CupSize,
    toppings: seq<string>)

  /** The state the dialog opens with. */
  const DefaultOptions: Options :=
    Options(Medium, false, false, false, [], Regular,
            [], false, [], [],
            NormalIce, NormalSugar, false, [], MediumCup, [])

  // ---------------------------------------------------------------------------
  // Price delta
  // ---------------------------------------------------------------------------

  function Count(b: bool): nat {
    if b then 1 else 0
  }

  /**
   * The per-unit price delta of the chosen options, as one formula per
   * category.  The option labels of the dialog promise -20 for a half portion
   * of a main course and +5 for lemon in a beverage; neither is charged.
   */
  function ExtraPrice(item: Option<MenuItem>, o: Options): (r: int)
    ensures item.None? ==> r == 0
    ensures r >= -5
    ensures r < 0 ==> item.Some? && item.value.category == Beverages && o.cupSize == SmallCup
    ensures item.Some? && item.value.category == Snacks ==> r >= 3 * |o.sauces|
    ensures item.Some? && item.value.category == MainCourse ==> r >= 8 * |o.addOns| + 12 * |o.addRaitaPapad|
  {
    match item
    case None => 0
    case Some(m) =>
      match m.category
      case Snacks =>
        10 * Count(o.addCheese) + 5 * Count(o.extraChilli) + 15 * Count(o.portionSize == Large)
        + 3 * |o.sauces|
      case MainCourse =>
        15 * Count(o.addExtraGravy) + 8 * |o.addOns| + 12 * |o.addRaitaPapad|
      case Beverages =>
        10 * Count(o.cupSize == LargeCup) - 5 * Count(o.cupSize == SmallCup)
        + 5 * |o.toppings| + 3 * |o.addMintGinger|
  }

  /** `calculateExtraPrice`: accumulate the delta option by option. */
  method CalculateExtraPrice(item: Option<MenuItem>, o: Options) returns (extraPrice: int)
    ensures extraPrice == ExtraPrice(item, o)
  {
    if item.None? {
      return 0;
    }
    extraPrice := 0;
    var category := item.value.category;
    if category == Snacks {
      if o.addCheese { extraPrice := extraPrice + 10; }
      if o.extraChilli { extraPrice := extraPrice + 5; }
      if o.portionSize == Large { extraPrice := extraPrice + 15; }
      extraPrice := extraPrice + |o.sauces| * 3;
    } else if category == MainCourse {
      if o.addExtraGravy { extraPrice := extraPrice + 15; }
      extraPrice := extraPrice + |o.addOns| * 8;
      extraPrice := extraPrice + |o.addRaitaPapad| * 12;
    } else if category == Beverages {
      if o.cupSize == LargeCup { extraPrice := extraPrice + 10; }
      if o.cupSize == SmallCup { extraPrice := extraPrice - 5; }
      extraPrice := extraPrice + |o.toppings| * 5;
      extraPrice := extraPrice + |o.addMintGinger| * 3;
    }
  }

  /** The default options cost nothing extra, whatever the item. */
  lemma DefaultsCostNothing(item: Option<MenuItem>)
    ensures ExtraPrice(item, DefaultOptions) == 0
  {
  }

  /** The portion size of a main course does not change its price, Half included. */
  lemma MainCoursePortionIsFree(item: MenuItem, o: Options, size: PortionSize)
    requires item.category == MainCourse
    ensures ExtraPrice(Some(item), o.(portionSize := size)) == ExtraPrice(Some(item), o)
  {
  }

  /** Lemon never changes the price (the dialog labels it +5 for beverages). */
  lemma LemonIsFree(item: MenuItem, o: Options, lemon: bool)
    ensures ExtraPrice(Some(item), o.(addLemon := lemon)) == ExtraPrice(Some(item), o)
  {
  }

  // ---------------------------------------------------------------------------
  // Multi-select toggle
  // ---------------------------------------------------------------------------

  /** `list.filter(i => i !== x)`. */
  function RemoveAll(list: seq<string>, x: string): (r: seq<string>)
    ensures x !in r
    ensures x !in list ==> r == list
  {
    if list == [] then []
    else
      assert list == [list[0]] + list[1..];
      (if list[0] == x then [] else [list[0]]) + RemoveAll(list[1..], x)
  }

  /** Removal takes out every copy of `x` and keeps every other value as often as before. */
  lemma {:induction false} RemoveAllCounts(list: seq<string>, x: string)
    ensures forall y :: y != x ==> multiset(RemoveAll(list, x))[y] == multiset(list)[y]
    ensures |RemoveAll(list, x)| + multiset(list)[x] == |list|
  {
    if list != [] {
      var tail := list[1..];
      assert list == [list[0]] + tail;
      RemoveAllCounts(tail, x);
      var head := if list[0] == x then [] else [list[0]];
      assert RemoveAll(list, x) == head + RemoveAll(tail, x);
      assert multiset(RemoveAll(list, x)) == multiset(head) + multiset(RemoveAll(tail, x));
    }
  }

  /**
   * Removal distributes over concatenation, so the values that stay keep their
   * order (the order is part of the stored mapping, and so of the line key).
   */
  lemma {:induction false} RemoveAllAppend(a: seq<string>, b: seq<string>, x: string)
    ensures RemoveAll(a + b, x) == RemoveAll(a, x) + RemoveAll(b, x)
  {
    if a != [] {
      var head := if a[0] == x then [] else [a[0]];
      assert (a + b)[0] == a[0] && (a + b)[1..] == a[1..] + b;
      assert RemoveAll(a + b, x) == head + RemoveAll(a[1..] + b, x);
      RemoveAllAppend(a[1..], b, x);
      assert RemoveAll(a, x) == head + RemoveAll(a[1..], x);
    } else {
      assert a + b == b;
    }
  }

  /**
   * `handleArrayToggle`: a selected value is unselected (every copy of it
   * goes), an unselected one is appended at the end.
   */
  function Toggle(list: seq<string>, x: string): (r: seq<string>)
    ensures x in r <==> x !in list
    ensures forall y :: y != x ==> multiset(r)[y] == multiset(list)[y]
    ensures x !in list ==> |r| == |list| + 1 && r[..|list|] == list && r[|list|] == x
    ensures x in list ==> |r| + multiset(list)[x] == |list|
  {
    if x in list then
      RemoveAllCounts(list, x);
      RemoveAll(list, x)
    else list + [x]
  }

  /** The value appended last is removed again, and nothing else is. */
  lemma {:induction false} RemoveAllAppended(list: seq<string>, x: string)
    requires x !in list
    ensures RemoveAll(list + [x], x) == list
  {
    if list == [] {
      assert [] + [x] == [x];
    } else {
      var tail := list[1..];
      assert x !in tail && list[0] != x;
      var extended := list + [x];
      assert extended[0] == list[0] && extended[1..] == tail + [x];
      assert RemoveAll(extended, x) == [list[0]] + RemoveAll(tail + [x], x);
      RemoveAllAppended(tail, x);
      assert list == [list[0]] + tail;
    }
  }

  /** Toggling an unselected value twice gives back the original selection. */
  lemma ToggleTwice(list: seq<string>, x: string)
    requires x !in list
    ensures Toggle(Toggle(list, x), x) == list
  {
    assert x in list + [x];
    RemoveAllAppended(list, x);
  }

  /** Selecting one more sauce on a snack costs 3 more; unselecting it refunds 3 per copy. */
  lemma ToggleSaucePrice(item: MenuItem, o: Options, sauce: string)
    requires item.category == Snacks
    ensures var o' := o.(sauces := Toggle(o.sauces, sauce));
            sauce !in o.sauces ==> ExtraPrice(Some(item), o') == ExtraPrice(Some(item), o) + 3
    ensures var o' := o.(sauces := Toggle(o.sauces, sauce));
            sauce in o.sauces ==> ExtraPrice(Some(item), o') + 3 * multiset(o.sauces)[sauce] == ExtraPrice(Some(item), o)
  {
  }

  // ---------------------------------------------------------------------------
  // Projection onto the item's category
  // ---------------------------------------------------------------------------

  /** The option names a stored customization mapping can carry. */
  datatype Field =
    | SpiceLevelField | AddCheeseField | NoOnionField | ExtraChilliField | SaucesField | PortionSizeField
    | ExcludeIngredientsField | AddExtraGravyField | AddOnsField | AddRaitaPapadField
    | IceLevelField | SugarLevelField | AddLemonField | AddMintGingerField | CupSizeField | ToppingsField

  /** The options the dialog keeps for each category. */
  function CategoryFields(category: Category): set<Field> {
    match category
    case Snacks =>
      {SpiceLevelField, AddCheeseField, NoOnionField, ExtraChilliField, SaucesField, PortionSizeField}
    case MainCourse =>
      {SpiceLevelField, ExcludeIngredientsField, AddExtraGravyField, PortionSizeField, AddOnsField, AddRaitaPapadField}
    case Beverages =>
      {IceLevelField, SugarLevelField, AddLemonField, AddMintGingerField, CupSizeField, ToppingsField}
  }

  /** The option names present in a stored mapping. */
  function Present(c: Customizations): set<Field> {
    (if c.spiceLevel.Some? then {SpiceLevelField} else {})
    + (if c.addCheese.Some? then {AddCheeseField} else {})
    + (if c.noOnion.Some? then {NoOnionField} else {})
    + (if c.extraChilli.Some? then {ExtraChilliField} else {})
    + (if c.sauces.Some? then {SaucesField} else {})
    + (if c.portionSize.Some? then {PortionSizeField} else {})
    + (if c.excludeIngredients.Some? then {ExcludeIngredientsField} else {})
    + (if c.addExtraGravy.Some? then {AddExtraGravyField} else {})
    + (if c.addOns.Some? then {AddOnsField} else {})
    + (if c.addRaitaPapad.Some? then {AddRaitaPapadField} else {})
    + (if c.iceLevel.Some? then {IceLevelField} else {})
    + (if c.sugarLevel.Some? then {SugarLevelField} else {})
    + (if c.addLemon.Some? then {AddLemonField} else {})
    + (if c.addMintGinger.Some? then {AddMintGingerField} else {})
    + (if c.cupSize.Some? then {CupSizeField} else {})
    + (if c.toppings.Some? then {ToppingsField} else {})
  }

  /** Every option present in the mapping holds the value chosen in the dialog. */
  predicate Agrees(c: Customizations, o: Options) {
    && (c.spiceLevel.Some? ==> c.spiceLevel.value == o.spiceLevel)
    && (c.addCheese.Some? ==> c.addCheese.value == o.addCheese)
    && (c.noOnion.Some? ==> c.noOnion.value == o.noOnion)
    && (c.extraChilli.Some? ==> c.extraChilli.value == o.extraChilli)
    && (c.sauces.Some? ==> c.sauces.value == o.sauces)
    && (c.portionSize.Some? ==> c.portionSize.value == o.portionSize)
    && (c.excludeIngredients.Some? ==> c.excludeIngredients.value == o.excludeIngredients)
    && (c.addExtraGravy.Some? ==> c.addExtraGravy.value == o.addExtraGravy)
    && (c.addOns.Some? ==> c.addOns.value == o.addOns)
    && (c.addRaitaPapad.Some? ==> c.addRaitaPapad.value == o.addRaitaPapad)
    && (c.iceLevel.Some? ==> c.iceLevel.value == o.iceLevel)
    && (c.sugarLevel.Some? ==> c.sugarLevel.value == o.sugarLevel)
    && (c.addLemon.Some? ==> c.addLemon.value == o.addLemon)
    && (c.addMintGinger.Some? ==> c.addMintGinger.value == o.addMintGinger)
    && (c.cupSize.Some? ==> c.cupSize.value == o.cupSize)
    && (c.toppings.Some? ==> c.toppings.value == o.toppings)
  }

  /**
   * The `relevantCustomizations` mapping of `handleAddToCart`: the dialog's
   * choices for exactly the options of the item's category.
   */
  function RelevantCustomizations(category: Category, o: Options): (r: Customizations)
    ensures Present(r) == CategoryFields(category)
    ensures Agrees(r, o)
  {
    match category
    case Snacks =>
      NoCustomizations.(spiceLevel := Some(o.spiceLevel), addCheese := Some(o.addCheese),
                        noOnion := Some(o.noOnion), extraChilli := Some(o.extraChilli),
                        sauces := Some(o.sauces), portionSize := Some(o.portionSize))
    case MainCourse =>
      NoCustomizations.(spiceLevel := Some(o.spiceLevel), excludeIngredients := Some(o.excludeIngredients),
                        addExtraGravy := Some(o.addExtraGravy), portionSize := Some(o.portionSize),
                        addOns := Some(o.addOns), addRaitaPapad := Some(o.addRaitaPapad))
    case Beverages =>
      NoCustomizations.(iceLevel := Some(o.iceLevel), sugarLevel := Some(o.sugarLevel),
                        addLemon := Some(o.addLemon), addMintGinger := Some(o.addMintGinger),
                        cupSize := Some(o.cupSize), toppings := Some(o.toppings))
  }

  /**
   * A mapping built by the dialog is never empty, so the line it creates never
   * has the key `(id, {})` that a call without customizations looks for.
   */
  lemma DialogMappingNotEmpty(item: MenuItem, o: Options)
    ensures RelevantCustomizations(item.category, o) != NoCustomizations
    ensures KeyOf(item.id, Some(RelevantCustomizations(item.category, o))) != KeyOf(item.id, None)
  {
    assert Present(NoCustomizations) == {};
  }

  /**
   * The price delta depends only on what is stored: two dialog states that
   * project to the same mapping for an item are priced the same.  So merging
   * a new unit into a line with the same key never mixes two prices.
   */
  lemma SameMappingSamePrice(item: MenuItem, o1: Options, o2: Options)
    requires RelevantCustomizations(item.category, o1) == RelevantCustomizations(item.category, o2)
    ensures ExtraPrice(Some(item), o1) == ExtraPrice(Some(item), o2)
  {
    var c1, c2 := RelevantCustomizations(item.category, o1), RelevantCustomizations(item.category, o2);
    match item.category
    case Snacks =>
      assert c1.addCheese == c2.addCheese && c1.extraChilli == c2.extraChilli;
      assert c1.portionSize == c2.portionSize && c1.sauces == c2.sauces;
    case MainCourse =>
      assert c1.addExtraGravy == c2.addExtraGravy && c1.addOns == c2.addOns;
      assert c1.addRaitaPapad == c2.addRaitaPapad;
    case Beverages =>
      assert c1.cupSize == c2.cupSize && c1.toppings == c2.toppings;
      assert c1.addMintGinger == c2.addMintGinger;
  }

  /**
   * `handleAddToCart`: with an item open, price the options, project them onto
   * the item's category and add one unit to the cart; with no item, do nothing.
   */
  method HandleAddToCart(store: Store, item: Option<MenuItem>, o: Options)
    requires store.Valid()
    modifies store
    ensures store.Valid() && store.orders == old(store.orders)
    ensures item.None? ==> store.items == old(store.items)
    ensures item.Some? ==>
              store.items == AddCustomized(old(store.items), item.value,
                                           RelevantCustomizations(item.value.category, o),
                                           Some(ExtraPrice(item, o)))
  {
    if item.None? {
      return;
    }
    var extraPrice := CalculateExtraPrice(item, o);
    var relevant := RelevantCustomizations(item.value.category, o);
    store.AddItemWithCustomization(item.value, relevant, Some(extraPrice));
  }
}
