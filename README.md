# Sales taxes kata — tax engine model

A Dafny model of the tax engine in `src/lib.rs` of the sales taxes kata.
An `Item` has a pre-tax ("clean") price, an import flag and a category. The
category is Book, Food, Medical or Other, and each carries the item's display
name. `Item::new` refuses a negative price. `get_prices` returns the pair
(pre-tax price, tax) from a fixed table over category and origin:

- domestic Book/Food/Medical pay nothing;
- domestic Other pays 10%;
- imported Book/Food/Medical pay 5%;
- imported Other pays 15%.

Every rate except the zero one goes through `round_numbers`, which rounds to
the nearest 0.05, ties away from zero. `to_string` renders the receipt line
`1 [imported ]<name>: <pre-tax price>`.

Money is modelled as exact Dafny `real`s. Dafny's `real` `.Floor` models Rust's
`f64::round`, including negative arguments.

Modules:
- `Rounding` (`rounding.dfy`) holds `round_numbers` and its properties: a
  multiple of 0.05, at most 0.025 away, nearest, unique, monotone, idempotent
  and odd.
- `Items` (`items.dfy`) holds the data types, `Item::new`, `get_prices`
  against an independent reference rule (10% basic tax on non-exempt
  goods plus 5% import duty), and `to_string`.
- `Vectors` (`vectors.dfy`) holds the repository's unit tests as lemmas.

The receipt line shows the pre-tax price `get_prices().0` (src/lib.rs:51).
No tax is added and there is no two-decimal formatting.

The test `test_purchase_3` (src/lib.rs:185-190) expects a tax total of 6.70.
Round-to-nearest gives 0.55 for the imported chocolates at 11.25, because
11.25 * 5% = 0.5625. The total is therefore 6.65; `Vectors.Purchase3Totals`
proves 6.65. The code's rounding, not the test, is what is modelled.

## Model

| member | source | states |
|---|---|---|
| `Rounding.RoundHalfAway` | src/lib.rs:56 | `f64::round`: the result is within 0.5 of the argument, and a half-way argument goes away from zero |
| `Rounding.RoundHalfAwayUnique` | src/lib.rs:56 | those three properties determine the rounded integer uniquely |
| `Rounding.RoundHalfAwayMonotone` | src/lib.rs:56 | `round` is monotone |
| `Rounding.RoundNumbers` | src/lib.rs:55-57 | the result is a whole multiple of 0.05 within 0.025 of the input, ties away from zero, and is non-negative for non-negative input |
| `Rounding.RoundNumbersUnique` | src/lib.rs:55-57 | any multiple of 0.05 within 0.025 of x that breaks ties away from zero is `round_numbers(x)` |
| `Rounding.RoundNumbersNearest` | src/lib.rs:55-57 | no multiple of 0.05 is closer to x than `round_numbers(x)` |
| `Rounding.RoundNumbersMonotone` | src/lib.rs:55-57 | x <= y implies `round_numbers(x) <= round_numbers(y)` |
| `Rounding.RoundNumbersOfTick` | src/lib.rs:55-57 | amounts already on the 0.05 grid are unchanged |
| `Rounding.RoundNumbersIdempotent` | src/lib.rs:55-57 | rounding twice equals rounding once |
| `Rounding.RoundNumbersOdd` | src/lib.rs:55-57 | `round_numbers(-x) == -round_numbers(x)` |
| `Items.NewItem` | src/lib.rs:27-36 | fails, with the source's message, exactly when the price is negative; otherwise returns a valid item holding price, flag and category unchanged |
| `Items.GetPrices` | src/lib.rs:59-77 | the first component is always the pre-tax price; domestic exempt items pay exactly 0; the tax is a multiple of 0.05 and is non-negative for a valid item |
| `Items.TaxFollowsRule` | src/lib.rs:60-75 | for every item, the case table equals rounding, once, the sum of a 10% basic tax (none for Book/Food/Medical) and a 5% import duty (none for domestic items) |
| `Items.TaxNearRule` | src/lib.rs:60-75 | the tax is never more than 0.025 away from basic tax plus import duty |
| `Items.TaxTable` | src/lib.rs:61-75 | the four cases: 0, round(10%), round(5%), round(15%) |
| `Items.TaxIgnoresName` | src/lib.rs:61-75 | prices depend on the category variant, not on its name |
| `Items.ImportNeverLowersTax` | src/lib.rs:62-74 | for a non-negative price, the imported item's tax is at least the domestic one's |
| `Items.ExemptNeverTaxedMore` | src/lib.rs:62-74 | for a non-negative price and the same origin, an exempt category pays no more than Other |
| `Items.TaxTotalIsTick` | src/lib.rs:187-188 | the tax total of any sequence of items, added up in order as the tests do (also at src/lib.rs:141 and 158), is a whole multiple of 0.05 |
| `Items.TaxMonotoneInPrice` | src/lib.rs:60-75 | for items of the same kind, a higher price never gives a lower tax |
| `Items.ToString` | src/lib.rs:39-52 | the line is the prefix (`"1 imported "` or `"1 "`), then the category's name, then `": "`, then the rendered pre-tax price `get_prices().0`, and nothing else |
| `Items.ToStringIgnoresCategoryVariant` | src/lib.rs:41-51 | the line depends only on name, origin and pre-tax price, not on the variant, so not on the tax either |
| `Items.ImportedPrefixIff` | src/lib.rs:45-51 | the line starts with `"1 imported "` iff the item is imported, provided the name does not itself begin with `"imported "` |
| `Items.ImportedPrefixAmbiguous` | src/lib.rs:41-51 | a domestic item named "imported perfume" prints the same line as an imported "perfume" |
| `Vectors.BookIsUntaxed` | src/lib.rs:88-93 | book 12.49 domestic gives (12.49, 0) |
| `Vectors.MusicCdTax` | src/lib.rs:96-102 | music CD 14.99 domestic Other gives (14.99, 1.50) |
| `Vectors.ImportedChocolatesTax` | src/lib.rs:105-111 | imported Food 10.00 gives (10.00, 0.50) |
| `Vectors.ImportedPerfumeTax` | src/lib.rs:114-125 | imported Other 47.50 gives (47.50, 7.15) |
| `Vectors.Purchase1Totals` | src/lib.rs:133-144 | pre-tax total 28.33, tax total 1.50 |
| `Vectors.Purchase2Totals` | src/lib.rs:146-161 | pre-tax total 57.50, tax total 0.50 + 7.15 = 7.65 |
| `Vectors.Purchase3Totals` | src/lib.rs:163-191 | pre-tax total 67.98; taxes 4.20, 1.90, 0, 0.55; tax total 6.65 (the test expects 6.70) |
| `Vectors.BookLine` | src/lib.rs:198-202 | the book line is `"1 book: 12.49"` |
| `Vectors.MusicCdLine` | src/lib.rs:204-209 | the music CD line shows the pre-tax 16.49, although the item's tax is 1.65 |

## Left out

- IEEE-754 `f64` arithmetic is not modelled. This covers the inexact `0.10 + 0.05` at src/lib.rs:73 and the tests' `assert_relative_eq!` epsilons. It also covers NaN: `Item::new` accepts a NaN price, because `NaN < 0.0` is false (src/lib.rs:28). `real` has no NaN, so `NewItem` fails exactly on negative prices. Amounts are exact reals, so the contracts are about the decimal arithmetic the code intends.
- Items.ToString: Rust's `{}` rendering of an `f64` (shortest round-trip decimal) is not modelled. It is the parameter `fmt`, and only the prefix/name/separator structure and the choice of the pre-tax price are stated.
- Items.ImportedPrefixIff: states the iff only for names that do not begin with "imported ". For a name that does, a domestic line also starts with "1 imported "; see `Items.ImportedPrefixAmbiguous`.
- `Basket` (src/lib.rs:79-81) is an unsized struct with no methods, so there is no aggregation to model. Parsing from text, receipt rendering and the totals lines are not in src/lib.rs.
- src/main.rs is a command-line wrapper that parses a literal into a basket and prints its `to_string` (src/main.rs:10-12). It calls a `Basket::from_str` that the library does not define, so it is not part of this model.
- The `Tax` trait (src/lib.rs:16-18) is modelled as the plain function `GetPrices`, because `Item` is its only implementor.
