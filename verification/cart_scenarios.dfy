/**
 * Concrete runs of the cart operations: the same item added twice and then
 * once more with customizations, and the one way `addItem` can create a
 * second line under an existing key.
 */
module CartScenarios {
  import opened Wrappers
  import opened CartStore

  const Samosa: MenuItem := MenuItem("1", "Samosa", "Crispy pastry", 25, "samosa.jpg", Snacks, true)

  const HighSpice: Customizations := NoCustomizations.(spiceLevel := Some(High))

  /**
   * Adding the same item twice merges into one line of quantity 2; adding it
   * again with a spice level and a delta of 5 makes a second line, for a
   * total of 2 * 25 + 30.
   */
  lemma SameItemTwiceThenCustomized()
    ensures var c1 := AddPlain(AddPlain([], Samosa), Samosa);
            |c1| == 1 && c1[0].quantity == 2 && TotalItems(c1) == 2 && TotalPrice(c1) == 50
    ensures var c2 := AddCustomized(AddPlain(AddPlain([], Samosa), Samosa), Samosa, HighSpice, Some(5));
            |c2| == 2 && c2[1].quantity == 1 && TotalItems(c2) == 3 && TotalPrice(c2) == 80
  {
    var c0 := AddPlain([], Samosa);
    assert c0 == [CartItem(Samosa, 1, None, None)];
    var c1 := AddPlain(c0, Samosa);
    assert FindIndex(c0, PlainLineOf(Samosa.id)) == 0;
    assert HighSpice != NoCustomizations;
    assert FindIndex(c1, LineWithKey(KeyOf(Samosa.id, Some(HighSpice)))) == -1;
  }

  /**
   * A line stored with an empty mapping `{}` (as `addItemWithCustomization`
   * stores one when given `{}`) has the same key as a plain line, yet
   * `addItem` only merges into lines with no mapping at all, so a plain add
   * after it appends a second line under that key.
   */
  lemma EmptyMappingThenPlainAdd(line: CartItem)
    requires line.customizations == Some(NoCustomizations)
    ensures var c := AddPlain([line], line.item);
            |c| == 2 && LineKey(c[0]) == LineKey(c[1]) && !DistinctKeys(c)
  {
    assert FindIndex([line], PlainLineOf(line.item.id)) == -1;
    var c := AddPlain([line], line.item);
    assert c == [line, CartItem(line.item, 1, None, None)];
  }
}
