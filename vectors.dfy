/** The unit tests of src/lib.rs as lemmas about the model. Each test builds
    its items with `Item::new(..).unwrap()`, so each lemma first states that
    construction succeeds. Amounts are exact, so the tests' epsilon
    comparisons become equalities. */
module Vectors {
  import opened Rounding
  import opened Items

  lemma BookIsUntaxed()
    ensures var r := NewItem(12.49, No, Book("book"));
      r.Ok? && GetPrices(r.value) == (12.49, 0.0)
  {
  }

  lemma MusicCdTax()
    ensures var r := NewItem(14.99, No, Other("music CD"));
      r.Ok? && GetPrices(r.value) == (14.99, 1.5)
  {
  }

  lemma ImportedChocolatesTax()
    ensures var r := NewItem(10.00, Yes, Food(""));
      r.Ok? && GetPrices(r.value) == (10.0, 0.50)
  {
  }

  lemma ImportedPerfumeTax()
    ensures var r := NewItem(47.50, Yes, Other("bottle of perfume"));
      r.Ok? && GetPrices(r.value) == (47.50, 7.15)
  {
  }

  /** test_purchase_1: book, music CD and chocolate bar. */
  lemma Purchase1Totals()
    ensures var r, s, t := NewItem(12.49, No, Book("")), NewItem(14.99, No, Other("CD")),
                           NewItem(0.85, No, Food(""));
      && r.Ok? && s.Ok? && t.Ok?
      && var a, b, c := GetPrices(r.value), GetPrices(s.value), GetPrices(t.value);
      && a.0 + b.0 + c.0 == 28.33 && a.1 + b.1 + c.1 == 1.50
  {
  }

  /** test_purchase_2: imported chocolates and imported perfume. */
  lemma Purchase2Totals()
    ensures var r, s := NewItem(10.00, Yes, Food("")), NewItem(47.50, Yes, Other("bottle of perfume"));
      && r.Ok? && s.Ok?
      && var a, b := GetPrices(r.value), GetPrices(s.value);
      && a.0 + b.0 == 57.50 && a.1 + b.1 == 7.65
  {
  }

  /** test_purchase_3: the pre-tax total is 67.98 as the test says, but the
      tax total that round-to-nearest gives is 6.65, not the 6.70 the test
      expects, because 11.25 * 5% = 0.5625 rounds to 0.55. */
  lemma Purchase3Totals()
    ensures var r, s := NewItem(27.99, Yes, Other("bottle of perfume")), NewItem(18.99, No, Other("bottle of perfume"));
      var t, u := NewItem(9.75, No, Medical("")), NewItem(11.25, Yes, Food(""));
      && r.Ok? && s.Ok? && t.Ok? && u.Ok?
      && var a, b, c, d := GetPrices(r.value), GetPrices(s.value), GetPrices(t.value), GetPrices(u.value);
      && a.0 + b.0 + c.0 + d.0 == 67.98
      && (a.1, b.1, c.1, d.1) == (4.20, 1.90, 0.0, 0.55)
      && a.1 + b.1 + c.1 + d.1 == 6.65
  {
  }

  /** item_to_string_tests::test_book, for any rendering that prints 12.49 as "12.49". */
  lemma BookLine(fmt: real -> string)
    requires fmt(12.49) == "12.49"
    ensures var r := NewItem(12.49, No, Book("book"));
      r.Ok? && ToString(r.value, fmt) == "1 book: 12.49"
  {
  }

  /** item_to_string_tests::test_music_cd: the taxed item still shows its
      pre-tax 16.49, although its tax is 1.65. */
  lemma MusicCdLine(fmt: real -> string)
    requires fmt(16.49) == "16.49"
    ensures var r := NewItem(16.49, No, Other("music CD"));
      && r.Ok?
      && GetPrices(r.value).1 == 1.65
      && ToString(r.value, fmt) == "1 music CD: 16.49"
  {
  }
}
