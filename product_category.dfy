/** The fixed list of product categories and the icon and badge colour the
    storefront shows for each. */
module ProductCategory {

  const RopaModa: string := "Ropa y Moda"
  const Electronica: string := "Electr\U{F3}nica"
  const HogarDecoracion: string := "Hogar y Decoraci\U{F3}n"
  const BellezaCuidado: string := "Belleza y Cuidado Personal"
  const Accesorios: string := "Accesorios"

  /** The categories in the order the selectors list them. */
  const All: seq<string> := [RopaModa, Electronica, HogarDecoracion, BellezaCuidado, Accesorios]

  const DefaultIcon: string := "\U{1F4E6}"
  const DefaultColor: string := "dark"

  /** Emoji shown next to a category; anything that is not one of the five
      categories (compared ordinally) gets the parcel. */
  function GetCategoryIcon(category: string): (icon: string)
    ensures icon != DefaultIcon <==> category in All
  {
    if category == RopaModa then "\U{1F455}"
    else if category == Electronica then "\U{1F4F1}"
    else if category == HogarDecoracion then "\U{1F3E0}"
    else if category == BellezaCuidado then "\U{1F484}"
    else if category == Accesorios then "\U{1F45C}"
    else DefaultIcon
  }

  /** Bootstrap colour name of a category's badge; unknown categories are
      "dark". */
  function GetCategoryColor(category: string): (color: string)
    ensures color != DefaultColor <==> category in All
  {
    if category == RopaModa then "primary"
    else if category == Electronica then "info"
    else if category == HogarDecoracion then "success"
    else if category == BellezaCuidado then "warning"
    else if category == Accesorios then "secondary"
    else DefaultColor
  }

  predicate Distinct(xs: seq<string>)
  {
    forall i, j :: 0 <= i < j < |xs| ==> xs[i] != xs[j]
  }

  /** The five categories are pairwise different. */
  lemma AllDistinct()
    ensures |All| == 5 && Distinct(All)
  {
  }

  /** Every category gets an icon and a colour of its own: no two categories
      share either, and none falls back to the default. */
  lemma CategoriesHaveOwnIconAndColor(i: nat, j: nat)
    requires i < |All| && j < |All|
    ensures GetCategoryIcon(All[i]) != DefaultIcon && GetCategoryColor(All[i]) != DefaultColor
    ensures GetCategoryIcon(All[i]) == GetCategoryIcon(All[j]) <==> i == j
    ensures GetCategoryColor(All[i]) == GetCategoryColor(All[j]) <==> i == j
  {
  }
}
