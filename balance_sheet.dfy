// The balance sheet page's financial ratios: current and non-current totals of the assets and
// liabilities, net worth, the current ratio and the debt-to-equity ratio.

module BalanceSheet {
  import opened Common

  /** An asset or liability: its category ("current" or "non-current") and value. */
  datatype Item = Item(name: string, value: real, category: string)

  datatype FinancialRatios = FinancialRatios(
    currentRatio: real, debtToEquityRatio: real, netWorth: real, totalAssets: real, totalLiabilities: real)

  const CurrentCategory: string := "current"
  const NonCurrentCategory: string := "non-current"

  function ValueOf(item: Item): real {
    item.value
  }

  function InCategory(category: string): Item -> bool {
    (item: Item) => item.category == category
  }

  /** The sum of the values of the items in one category. */
  function CategoryTotal(items: seq<Item>, category: string): real {
    SumOf(Filter(items, InCategory(category)), ValueOf)
  }

  /** calculateFinancialRatios; all zero while either list is not loaded. */
  function CalculateFinancialRatios(assets: Option<seq<Item>>, liabilities: Option<seq<Item>>): (r: FinancialRatios)
    ensures assets.None? || liabilities.None? ==> r == FinancialRatios(0.0, 0.0, 0.0, 0.0, 0.0)
  {
    if assets.None? || liabilities.None? then FinancialRatios(0.0, 0.0, 0.0, 0.0, 0.0)
    else
      Ratios(
        CategoryTotal(assets.value, CurrentCategory), CategoryTotal(assets.value, NonCurrentCategory),
        CategoryTotal(liabilities.value, CurrentCategory), CategoryTotal(liabilities.value, NonCurrentCategory))
  }

  /** The ratios of the four category totals. */
  function Ratios(currentAssets: real, nonCurrentAssets: real, currentLiabilities: real, nonCurrentLiabilities: real): (r: FinancialRatios)
    ensures r.totalAssets == currentAssets + nonCurrentAssets
    ensures r.totalLiabilities == currentLiabilities + nonCurrentLiabilities
    ensures r.netWorth == r.totalAssets - r.totalLiabilities
    ensures currentLiabilities > 0.0 ==> r.currentRatio * currentLiabilities == currentAssets
    ensures currentLiabilities <= 0.0 ==> r.currentRatio == 0.0
    ensures r.netWorth > 0.0 ==> r.debtToEquityRatio * r.netWorth == r.totalLiabilities
    ensures r.netWorth <= 0.0 ==> r.debtToEquityRatio == 0.0
  {
    var totalAssets := currentAssets + nonCurrentAssets;
    var totalLiabilities := currentLiabilities + nonCurrentLiabilities;
    var netWorth := totalAssets - totalLiabilities;
    var currentRatio := if currentLiabilities > 0.0 then Quotient(currentAssets, currentLiabilities) else 0.0;
    var debtToEquity := if netWorth > 0.0 then Quotient(totalLiabilities, netWorth) else 0.0;
    FinancialRatios(currentRatio, debtToEquity, netWorth, totalAssets, totalLiabilities)
  }

  function Quotient(a: real, b: real): (q: real)
    requires b != 0.0
    ensures q * b == a
    ensures a >= 0.0 && b > 0.0 ==> q >= 0.0
  {
    a / b
  }

  /** A category's total is the sum over all items, counting only that category's values. */
  function Masked(category: string): Item -> real {
    (item: Item) => if item.category == category then item.value else 0.0
  }

  lemma {:induction false} CategoryTotalMasked(items: seq<Item>, category: string)
    ensures CategoryTotal(items, category) == SumOf(items, Masked(category))
  {
    if items != [] {
      CategoryTotalMasked(items[1..], category);
      assert items == [items[0]] + items[1..];
      SumOfAppend([items[0]], items[1..], Masked(category));
      var head := if items[0].category == category then [items[0]] else [];
      SumOfAppend(head, Filter(items[1..], InCategory(category)), ValueOf);
      assert [items[0]][..0] == [];
    }
  }

  /** The ratios do not depend on the order of the items. */
  lemma RatiosIgnoreOrder(assets: seq<Item>, liabilities: seq<Item>, assets': seq<Item>, liabilities': seq<Item>)
    requires multiset(assets) == multiset(assets') && multiset(liabilities) == multiset(liabilities')
    ensures CalculateFinancialRatios(Some(assets), Some(liabilities)) == CalculateFinancialRatios(Some(assets'), Some(liabilities'))
  {
    CategoryTotalMasked(assets, CurrentCategory);
    CategoryTotalMasked(assets', CurrentCategory);
    CategoryTotalMasked(assets, NonCurrentCategory);
    CategoryTotalMasked(assets', NonCurrentCategory);
    CategoryTotalMasked(liabilities, CurrentCategory);
    CategoryTotalMasked(liabilities', CurrentCategory);
    CategoryTotalMasked(liabilities, NonCurrentCategory);
    CategoryTotalMasked(liabilities', NonCurrentCategory);
    SumOfPermutation(assets, assets', Masked(CurrentCategory));
    SumOfPermutation(assets, assets', Masked(NonCurrentCategory));
    SumOfPermutation(liabilities, liabilities', Masked(CurrentCategory));
    SumOfPermutation(liabilities, liabilities', Masked(NonCurrentCategory));
  }

  /** With every asset current or non-current, the total assets are the sum of all values. */
  lemma TotalsCoverItems(assets: seq<Item>, liabilities: seq<Item>)
    requires forall i :: 0 <= i < |assets| ==> assets[i].category in {CurrentCategory, NonCurrentCategory}
    ensures CalculateFinancialRatios(Some(assets), Some(liabilities)).totalAssets == SumOf(assets, ValueOf)
  {
    var current, nonCurrent := CategoryTotal(assets, CurrentCategory), CategoryTotal(assets, NonCurrentCategory);
    assert CalculateFinancialRatios(Some(assets), Some(liabilities)).totalAssets == current + nonCurrent;
    CategoryTotalMasked(assets, CurrentCategory);
    CategoryTotalMasked(assets, NonCurrentCategory);
    SplitSum(assets);
  }

  lemma {:induction false} SplitSum(items: seq<Item>)
    requires forall i :: 0 <= i < |items| ==> items[i].category in {CurrentCategory, NonCurrentCategory}
    ensures SumOf(items, Masked(CurrentCategory)) + SumOf(items, Masked(NonCurrentCategory)) == SumOf(items, ValueOf)
  {
    if items != [] {
      SplitSum(items[..|items| - 1]);
    }
  }

  /** With no negative values, neither the totals nor the ratios are negative. */
  lemma TotalsNonNegative(assets: seq<Item>, liabilities: seq<Item>)
    requires forall i :: 0 <= i < |assets| ==> assets[i].value >= 0.0
    requires forall i :: 0 <= i < |liabilities| ==> liabilities[i].value >= 0.0
    ensures var r := CalculateFinancialRatios(Some(assets), Some(liabilities));
      r.totalAssets >= 0.0 && r.totalLiabilities >= 0.0 && r.currentRatio >= 0.0 && r.debtToEquityRatio >= 0.0
  {
    CategoryTotalMasked(assets, CurrentCategory);
    CategoryTotalMasked(assets, NonCurrentCategory);
    CategoryTotalMasked(liabilities, CurrentCategory);
    CategoryTotalMasked(liabilities, NonCurrentCategory);
    SumOfNonNegative(assets, Masked(CurrentCategory));
    SumOfNonNegative(assets, Masked(NonCurrentCategory));
    SumOfNonNegative(liabilities, Masked(CurrentCategory));
    SumOfNonNegative(liabilities, Masked(NonCurrentCategory));
  }
}
