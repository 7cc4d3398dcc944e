# Order resource pricing model

A Dafny model of the logic in the order resource of a Filament e-commerce admin
panel (`app/Filament/Resources/OrderResource.php`).

- **Order-line pricing.** The "Order Items" repeater holds rows with
  `product_id`, `quantity`, `price` and `total_price`. The draft order also has
  a `total`. Three `afterStateUpdated` reactions rewrite the derived fields:
  - choosing a product copies its catalog price and prices the line;
  - changing the quantity re-prices the line;
  - a change to the repeater sums the line totals into `total`.

  The product and quantity reactions are pure functions on one row, and the
  total reaction is a pure function over the whole sequence of rows (module
  `OrderItems`). The class
  `OrderForm.Draft` holds the rows and the total and updates them in place.
  Its methods first store the edited field, which the framework does, and then
  apply the reaction.
- **Status badge.** The orders table maps a status to a colour and an icon
  with a `match` (module `OrderStatus`). That mapping is compared with the
  options and icons of the form's status buttons.
- **Navigation badge.** It shows the number of processing orders and turns
  `warning` above ten (module `Navigation`).
- **Default order number.** It is `OR-` followed by a random integer
  (module `OrderNumber`).

Both the navigation badge and the order number use PHP's conversion of an
integer to a decimal string. Module `Decimal` models that conversion and proves
it round-trips with a parser.

Modelling choices:
- Money is an exact integer count of the smallest currency unit.
- Quantities are integers.
- Every form field may be null, which is modelled with `Option`.
- The product table is a `map` from product id to price. It stands in for
  `Product::find`.
- The processing-order count and the random integer are parameters.
- A `match` with no matching arm returns `Err(UnhandledMatch(..))` instead of
  throwing.

Selecting an unknown or cleared product only nulls `price`; the previous
`total_price` stays (`OrderResource.php:96-98`), see the third `ensures` of
`AfterProductSelected`. As a result, the order total keeps counting that stale
line total until the quantity is edited or a known product is selected.

The code also treats a null quantity differently in its two reactions. The
product reaction defaults it to 1 with `??`. The quantity reaction multiplies
by it directly, and PHP arithmetic treats null as 0.

## Model

| member | source | states |
|---|---|---|
| `Decimal.ToDecimal` | app/Filament/Resources/OrderResource.php:49 | PHP's integer-to-string conversion yields a non-empty string of digits with no leading zero |
| `Decimal.ParseToDecimal` | app/Filament/Resources/OrderResource.php:49 | parsing the printed decimal string gives back the integer |
| `Decimal.ToDecimalParse` | app/Filament/Resources/OrderResource.php:49 | printing the value of a canonical numeral gives back the numeral |
| `Decimal.ToDecimalLength` | app/Filament/Resources/OrderResource.php:49 | an integer with k digits prints as exactly k characters |
| `Decimal.ParseBounds` | app/Filament/Resources/OrderResource.php:49 | a canonical numeral of k characters denotes a number below 10^k, and, when k > 1, at least 10^(k-1) (the numeral "0" has value 0) |
| `OrderItems.FindPrice` | app/Filament/Resources/OrderResource.php:91 | the product lookup finds a price exactly when the selected id is non-null and in the catalog, and that price is the catalog's |
| `OrderItems.AfterProductSelected` | app/Filament/Resources/OrderResource.php:90-99 | a known product sets `price` to its catalog price and `total_price` to price × quantity, with a null quantity counting as 1. An unknown or null id sets `price` to null and keeps the old `total_price`. `product_id` and `quantity` never change |
| `OrderItems.AfterQuantityChanged` | app/Filament/Resources/OrderResource.php:104-107 | `total_price` becomes (price ?? 0) × quantity and is never null. It is 0 for a row without a price or without a quantity. `price`, `product_id` and `quantity` do not change |
| `OrderItems.PricedAfterProductSelected` | app/Filament/Resources/OrderResource.php:90-99 | after the product reaction, a row with both a price and a quantity has total = price × quantity |
| `OrderItems.PricedAfterQuantityChanged` | app/Filament/Resources/OrderResource.php:104-107 | after the quantity reaction, a row with both a price and a quantity has total = price × quantity |
| `OrderItems.NewItem` | app/Filament/Resources/OrderResource.php:100-102 | a new row has the default quantity 1 and no product or price. It satisfies the pricing invariant and adds nothing to the order total |
| `OrderItems.Contribution` | app/Filament/Resources/OrderResource.php:119 | a row adds its line total to the order total when it has one, and a null line total adds 0 |
| `OrderItems.ItemsTotal` | app/Filament/Resources/OrderResource.php:119 | the order total is the sum of the rows' contributions, and it is 0 when no row has a non-zero line total (an empty repeater included) |
| `OrderItems.ItemsTotalLast` | app/Filament/Resources/OrderResource.php:119 | the total equals the left-to-right accumulation of `Collection::sum`: the total of all rows but the last, plus the last row's contribution |
| `OrderItems.ItemsTotalAppend` | app/Filament/Resources/OrderResource.php:118-120 | the total of two runs of rows is the sum of their totals |
| `OrderItems.ItemsTotalSplit` | app/Filament/Resources/OrderResource.php:118-120 | the total is the rows before k, plus row k's contribution, plus the rows after k |
| `OrderItems.ItemsTotalRemoveAt` | app/Filament/Resources/OrderResource.php:118-120 | deleting row k takes exactly that row's contribution off the order total |
| `OrderItems.ItemsTotalPermutation` | app/Filament/Resources/OrderResource.php:118-120 | the order total does not depend on the order of the rows |
| `OrderItems.ItemsTotalInsertNeutral` | app/Filament/Resources/OrderResource.php:118-120 | inserting a row whose line total is null or 0 at any position leaves the order total unchanged |
| `OrderItems.ItemsTotalRemoveNeutral` | app/Filament/Resources/OrderResource.php:118-120 | removing a row whose line total is null or 0 leaves the order total unchanged |
| `OrderItems.ItemsTotalUpdate` | app/Filament/Resources/OrderResource.php:118-120 | replacing one row changes the order total by exactly the change in that row's line total |
| `OrderItemsExamples.PricingWalkthrough` | app/Filament/Resources/OrderResource.php:90-121 | with product 1 at 1000: selecting it gives price 1000 and total 1000. Quantity 3 then gives 3000. An order with that row and an empty row totals 3000. An unknown product gives a null price, and then a quantity edit gives total 0 |
| `OrderForm.Draft.constructor` | app/Filament/Resources/OrderResource.php:83-125 | a new draft has no rows and a null total |
| `OrderForm.Draft.AddItem` | app/Filament/Resources/OrderResource.php:100-102 | appends a row with only the default quantity 1. Keeps the total, the pricing invariant, and agreement of the total with the rows |
| `OrderForm.Draft.RemoveItem` | app/Filament/Resources/OrderResource.php:83-121 | deletes row k and keeps the pricing invariant. If the row's line total was null or 0, the total still agrees with the rows |
| `OrderForm.Draft.SelectProduct` | app/Filament/Resources/OrderResource.php:85-99 | stores the chosen id in row k and applies the product reaction to that row only. The total and the pricing invariant are kept |
| `OrderForm.Draft.ChangeQuantity` | app/Filament/Resources/OrderResource.php:100-107 | stores the new quantity in row k and applies the quantity reaction to that row only. The total and the pricing invariant are kept |
| `OrderForm.Draft.RecomputeTotal` | app/Filament/Resources/OrderResource.php:118-121 | sets `total` to the sum of the line totals, nulls counting as 0, and leaves the rows unchanged |
| `OrderStatus.StatusColor` | app/Filament/Resources/OrderResource.php:144-149 | a colour exists exactly for the four statuses the form offers. Any other status is an unhandled-match error |
| `OrderStatus.StatusIcon` | app/Filament/Resources/OrderResource.php:149-154 | an icon exists exactly for the statuses that have a form icon, and it is the same icon the form's button uses. Any other status is an unhandled-match error |
| `OrderStatus.FormStatusesRenderInTable` | app/Filament/Resources/OrderResource.php:63-75 | every status the form can store has a table colour and icon, and distinct statuses have distinct colours |
| `Navigation.NavigationBadge` | app/Filament/Resources/OrderResource.php:28-31 | the badge is the decimal form of the processing-order count |
| `Navigation.NavigationBadgeColor` | app/Filament/Resources/OrderResource.php:33-38 | the colour is `warning` if and only if the count exceeds 10, and `primary` otherwise |
| `Navigation.BadgeColorMatchesShownCount` | app/Filament/Resources/OrderResource.php:28-38 | the colour is `warning` exactly when the number the badge shows exceeds 10 |
| `OrderNumber.DefaultOrderNumber` | app/Filament/Resources/OrderResource.php:49 | for a draw in [10000, 99999], the number is 8 characters: `OR-` and then 5 digits with a non-zero first digit. The digits spell the draw |
| `OrderNumber.DefaultOrderNumberInjective` | app/Filament/Resources/OrderResource.php:49 | distinct draws give distinct order numbers |
| `OrderNumber.OrderNumberShapeIsReachable` | app/Filament/Resources/OrderResource.php:49 | every string of that shape is the default number for some draw in range |

## Left out

- `ProductResource.php`, `BrandResource.php` and `CustomerResource.php`. They are field, column, filter and route declarations. Their only computation is slug generation by `Str::slug`, and that library is not part of this model.
- Database access. `Product::find` is a map parameter. The processing-order count of `getNavigationBadge` and `getNavigationBadgeColor` is a `nat` parameter. `Product::pluck` (the select's option list) is not modelled.
- `random_int`. The draw is a parameter restricted to its range, [10000, 99999].
- Floating-point arithmetic. Prices and totals are exact integers of the smallest currency unit, and nothing is claimed about PHP rounding. Fractional quantities and numeric strings in form fields are not modelled.
- When the reactions fire. Livewire round-trips and Filament's reactivity decide that. Each reaction is a method the caller invokes. `AddItem`, `RemoveItem`, `SelectProduct` and `ChangeQuantity` do not update `total`; `RecomputeTotal` does.
- BadgeColorMatchesShownCount: both `count()` queries (`OrderResource.php:30` and `:35`) are assumed to see the same count. A concurrent status change between them, which could show "10" in `warning`, is not modelled.
- The repeater's initial number of rows comes from the framework's defaults. A new draft starts with no rows.
- Validation rules, wizard steps, the rich editor, the customer and shipping fields, table columns and their sum summarizers, the export bulk action, navigation icons and page routes. The framework and the database handle all of them.
