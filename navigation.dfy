/**
 * The navigation badge of the orders resource: the number of orders in status
 * `processing`, drawn in a warning colour once there are more than ten. The
 * count the database query returns is a parameter.
 */
module Navigation {
  import opened Decimal

  /** The badge text: the processing-order count in decimal. */
  function NavigationBadge(processingCount: nat): (badge: string)
    ensures IsCanonical(badge) && ParseDecimal(badge) == processingCount
  {
    ParseToDecimal(processingCount);
    ToDecimal(processingCount)
  }

  /** The badge colour: `warning` above ten processing orders, `primary` otherwise. */
  function NavigationBadgeColor(processingCount: nat): (color: string)
    ensures color == "warning" <==> processingCount > 10
    ensures color == "primary" <==> processingCount <= 10
  {
    if processingCount > 10 then "warning" else "primary"
  }

  /** The colour turns to `warning` exactly when the number the badge shows exceeds ten. */
  lemma BadgeColorMatchesShownCount(processingCount: nat)
    ensures NavigationBadgeColor(processingCount) == "warning" <==>
              ParseDecimal(NavigationBadge(processingCount)) > 10
  {
  }
}
