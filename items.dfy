/** Items, their validating constructor, the tax table and the receipt line
    of src/lib.rs. The `Tax` trait has one implementor, so `get_prices` is a
    plain function on `Item`. */
module Items {
  import opened Rounding

  datatype Imported = Yes | No

  /** Every category carries the item's display name. */
  datatype Category =
    | Book(name: string)
    | Food(name: string)
    | Medical(name: string)
    | Other(name: string)

  datatype Item = Item(cleanPrice: real, imported: Imported, category: Category)

  /** `Result<Self, &'static str>` */
  datatype Result<T> = Ok(value: T) | Err(error: string)

  const NegativePriceError: string := "clean_price must be positive"

  /** What `Item::new` guarantees of every item it builds. */
  predicate Valid(item: Item) { item.cleanPrice >= 0.0 }

  /** `Item::new`: refuses a negative pre-tax price, otherwise keeps all
      three arguments as given. */
  function NewItem(cleanPrice: real, imported: Imported, category: Category): (r: Result<Item>)
    ensures r.Err? <==> cleanPrice < 0.0
    ensures r.Err? ==> r.error == NegativePriceError
    ensures r.Ok? ==> Valid(r.value)
    ensures r.Ok? ==> r.value.cleanPrice == cleanPrice && r.value.imported == imported
                      && r.value.category == category
  {
    if cleanPrice < 0.0 then Err(NegativePriceError)
    else Ok(Item(cleanPrice, imported, category))
  }

  /** Books, food and medical products are exempt from the basic sales tax. */
  predicate Exempt(c: Category) { c.Book? || c.Food? || c.Medical? }

  /** Reference amounts, stated independently of the table in `get_prices`:
      a 10% basic sales tax on goods that are not exempt, and a 5% import
      duty on every imported good. */
  function BasicTax(item: Item): real { if Exempt(item.category) then 0.0 else item.cleanPrice * 0.10 }
  function ImportDuty(item: Item): real { if item.imported == Yes then item.cleanPrice * 0.05 else 0.0 }

  /** `get_prices`: the pair (pre-tax price, tax). */
  function GetPrices(item: Item): (r: (real, real))
    ensures r.0 == item.cleanPrice
    ensures Exempt(item.category) && item.imported == No ==> r.1 == 0.0
    ensures IsTick(r.1)
    ensures Valid(item) ==> r.1 >= 0.0
  {
    match (item.category, item.imported)
    case (Other(_), No) => (item.cleanPrice, RoundNumbers(item.cleanPrice * 0.10))
    case (Other(_), Yes) => (item.cleanPrice, RoundNumbers(item.cleanPrice * (0.10 + 0.05)))
    case (_, No) => (item.cleanPrice, 0.0)
    case (_, Yes) => (item.cleanPrice, RoundNumbers(item.cleanPrice * 0.05))
  }

  /** The case table of `get_prices` agrees with the additive rule on every
      item: the tax is basic tax plus import duty, rounded once to the nearest
      five cents. */
  lemma TaxFollowsRule(item: Item)
    ensures GetPrices(item).1 == RoundNumbers(BasicTax(item) + ImportDuty(item))
  {
    if Exempt(item.category) && item.imported == No {
      RoundNumbersOfTick(0.0);
    }
  }

  /** Hence the tax is never more than 0.025 away from that sum. */
  lemma TaxNearRule(item: Item)
    ensures Abs(GetPrices(item).1 - (BasicTax(item) + ImportDuty(item))) <= 0.025
  {
    TaxFollowsRule(item);
  }

  /** The per-case rates of `get_prices`, written out. */
  lemma TaxTable(price: real, c: Category)
    ensures Exempt(c) ==> GetPrices(Item(price, No, c)).1 == 0.0
    ensures !Exempt(c) ==> GetPrices(Item(price, No, c)).1 == RoundNumbers(price * 0.10)
    ensures Exempt(c) ==> GetPrices(Item(price, Yes, c)).1 == RoundNumbers(price * 0.05)
    ensures !Exempt(c) ==> GetPrices(Item(price, Yes, c)).1 == RoundNumbers(price * 0.15)
  {
  }

  /** The tax depends on the category variant only, never on its name. */
  lemma TaxIgnoresName(price: real, i: Imported, c: Category, d: Category)
    requires c.Book? == d.Book? && c.Food? == d.Food? && c.Medical? == d.Medical?
    ensures GetPrices(Item(price, i, c)) == GetPrices(Item(price, i, d))
  {
  }

  /** Importing a valid item never lowers its tax. */
  lemma ImportNeverLowersTax(domestic: Item, imported: Item)
    requires domestic.imported == No && imported.imported == Yes
    requires domestic.category == imported.category
    requires 0.0 <= domestic.cleanPrice == imported.cleanPrice
    ensures GetPrices(domestic).1 <= GetPrices(imported).1
  {
    var p := domestic.cleanPrice;
    if Exempt(domestic.category) {
      RoundNumbersMonotone(0.0, p * 0.05);
    } else {
      RoundNumbersMonotone(p * 0.10, p * (0.10 + 0.05));
    }
  }

  /** An exempt item never pays more tax than a non-exempt one of the same
      price and origin. */
  lemma ExemptNeverTaxedMore(exempt: Item, taxed: Item)
    requires Exempt(exempt.category) && !Exempt(taxed.category)
    requires exempt.imported == taxed.imported
    requires 0.0 <= exempt.cleanPrice == taxed.cleanPrice
    ensures GetPrices(exempt).1 <= GetPrices(taxed).1
  {
    var p := exempt.cleanPrice;
    if exempt.imported == No {
      RoundNumbersMonotone(0.0, p * 0.10);
    } else {
      RoundNumbersMonotone(p * 0.05, p * (0.10 + 0.05));
    }
  }

  /** The tax total of several items, added up in order as the tests do. */
  function TaxTotal(items: seq<Item>): real
  {
    if items == [] then 0.0 else TaxTotal(items[..|items| - 1]) + GetPrices(items[|items| - 1]).1
  }

  /** A tax total is a whole number of five-cent steps. */
  lemma {:induction false} TaxTotalIsTick(items: seq<Item>)
    ensures IsTick(TaxTotal(items))
  {
    if items != [] {
      TaxTotalIsTick(items[..|items| - 1]);
      TickSum(TaxTotal(items[..|items| - 1]), GetPrices(items[|items| - 1]).1);
    } else {
      RoundNumbersOfTick(0.0);
    }
  }

  /** A dearer item of the same kind never pays less tax. */
  lemma TaxMonotoneInPrice(a: Item, b: Item)
    requires a.imported == b.imported && a.category == b.category
    requires a.cleanPrice <= b.cleanPrice
    ensures GetPrices(a).1 <= GetPrices(b).1
  {
    var p, q := a.cleanPrice, b.cleanPrice;
    match (a.category, a.imported)
    case (Other(_), No) => RoundNumbersMonotone(p * 0.10, q * 0.10);
    case (Other(_), Yes) => RoundNumbersMonotone(p * (0.10 + 0.05), q * (0.10 + 0.05));
    case (_, No) =>
    case (_, Yes) => RoundNumbersMonotone(p * 0.05, q * 0.05);
  }

  function Prefix(i: Imported): string { if i == Yes then "1 imported " else "1 " }

  /** `to_string` on an item: prefix, name, ": ", and the PRE-TAX price as
      `fmt` renders it. `fmt` stands for Rust's `{}` formatting of an `f64`. */
  function ToString(item: Item, fmt: real -> string): (s: string)
    ensures var n, k := item.category.name, |Prefix(item.imported)|;
      && |s| == k + |n| + 2 + |fmt(item.cleanPrice)|
      && s[..k] == (if item.imported == Yes then "1 imported " else "1 ")
      && s[k..k + |n|] == item.category.name
      && s[k + |n|..k + |n| + 2] == ": "
      && s[k + |n| + 2..] == fmt(GetPrices(item).0)
  {
    var p, n := Prefix(item.imported), item.category.name;
    assert (p + n + ": " + fmt(GetPrices(item).0))[|p|..|p| + |n|] == n;
    p + n + ": " + fmt(GetPrices(item).0)
  }

  /** The line shows the pre-tax price, not price plus tax: it does not change
      when only the tax would (same name, origin and price, other category). */
  lemma ToStringIgnoresCategoryVariant(price: real, i: Imported, c: Category, d: Category, fmt: real -> string)
    requires c.name == d.name
    ensures ToString(Item(price, i, c), fmt) == ToString(Item(price, i, d), fmt)
  {
  }

  /** Unless the name itself begins with "imported ", the line begins with
      "1 imported " exactly when the item is imported. */
  lemma {:induction false} ImportedPrefixIff(item: Item, fmt: real -> string)
    requires !(|item.category.name| >= 9 && item.category.name[..9] == "imported ")
    ensures var s := ToString(item, fmt);
      (|s| >= 11 && s[..11] == "1 imported ") <==> item.imported == Yes
  {
    var s := ToString(item, fmt);
    var n := item.category.name;
    if item.imported == No && |s| >= 11 {
      assert s == "1 " + (n + ": " + fmt(item.cleanPrice));
      if |n| >= 9 {
        assert s[2..11] == n[..9];
        assert s[..11][2..] != "1 imported "[2..];
      } else {
        assert s[..11][2 + |n|] == ':' != "1 imported "[2 + |n|];
      }
    }
  }

  /** The prefix alone does not tell the origin: a domestic item named
      "imported X" and an imported item named "X" print the same line. */
  lemma ImportedPrefixAmbiguous(price: real, fmt: real -> string)
    ensures ToString(Item(price, No, Other("imported perfume")), fmt)
         == ToString(Item(price, Yes, Other("perfume")), fmt)
  {
  }
}
