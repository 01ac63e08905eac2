/** decorator/utils.py: choosing a price by size. */
module Utils {
  import opened Beverages

  /** `calculate_size_based_cost`: one of its three price arguments, picked by
      `size`. The source's final `else` (the GRANDE price) cannot be reached,
      because `Size` has exactly three values. */
  function SizeBasedCost(size: Size, tallCost: int, grandeCost: int, ventiCost: int): (r: int)
    ensures r == tallCost || r == grandeCost || r == ventiCost
    ensures size == Tall ==> r == tallCost
    ensures size == Grande ==> r == grandeCost
    ensures size == Venti ==> r == ventiCost
  {
    match size
    case Tall => tallCost
    case Grande => grandeCost
    case Venti => ventiCost
  }
}
