/**
 * The "add to cart" button of the product page: the size check, the line
 * item built from what the page shows, and the hand-over to the cart store.
 */
module ProductPage {
  import opened Wrappers
  import opened Cart
  import opened CartStore
  import opened QuantityStepper

  /** The size `<select>`: the values of its options in order, and its value. */
  datatype SizeSelect = SizeSelect(optionValues: seq<string>, selected: string)

  /** The texts the handler picks up from the page; `None` for a missing element. */
  datatype PageText = PageText(
    title: Option<string>,
    imageSrc: Option<string>,
    tierPrice: Option<string>,
    supplierName: Option<string>)

  /** `Array.from(select.options).some(opt => opt.value && opt.value !== '')` */
  function HasNonEmptyOption(values: seq<string>): (b: bool)
    ensures b <==> exists i :: 0 <= i < |values| && values[i] != ""
  {
    if values == [] then false
    else values[0] != "" || HasNonEmptyOption(values[1..])
  }

  /** The size the handler passes on: the select's value, or "" without a select. */
  function ChosenSize(select: Option<SizeSelect>): (size: string)
    ensures select.Some? ==> size == select.value.selected
    ensures select.None? ==> size == ""
  {
    match select
    case Some(s) => s.selected
    case None => ""
  }

  /** The click is refused exactly when there is a size select with more than
      one option, some option carries a non-empty value, and no size is chosen. */
  function SizeMissing(select: Option<SizeSelect>): (missing: bool)
    ensures missing <==>
      && select.Some?
      && |select.value.optionValues| > 1
      && (exists i :: 0 <= i < |select.value.optionValues| && select.value.optionValues[i] != "")
      && select.value.selected == ""
  {
    match select
    case Some(s) => |s.optionValues| > 1 && HasNonEmptyOption(s.optionValues) && s.selected == ""
    case None => false
  }

  /** `element?.textContent || fallback` */
  function TextOr(text: Option<string>, fallback: string): (s: string)
    ensures text.Some? && text.value != "" ==> s == text.value
    ensures text.None? || text.value == "" ==> s == fallback
  {
    if text.Some? && text.value != "" then text.value else fallback
  }

  /** The line item built from the page, before it gets its id. Every text
      falls back to a default when the page lacks it; material and color are
      fixed. */
  function ProductFromPage(page: PageText, size: string, quantity: Option<int>): (p: CartItem)
    ensures p.name == TextOr(page.title, "Product") && p.name != ""
    ensures p.image == TextOr(page.imageSrc, "")
    ensures p.price == TextOr(page.tierPrice, "$0.00") && p.price != ""
    ensures p.seller == TextOr(page.supplierName, "Unknown Seller") && p.seller != ""
    ensures p.size == size && p.quantity == quantity
    ensures p.material == "Plastic" && p.color == "blue"
  {
    CartItem(
      id := "",
      name := TextOr(page.title, "Product"),
      image := TextOr(page.imageSrc, ""),
      price := TextOr(page.tierPrice, "$0.00"),
      size := size,
      quantity := quantity,
      seller := TextOr(page.supplierName, "Unknown Seller"),
      material := "Plastic",
      color := "blue")
  }

  /** The quantity the handler records: parseInt of the input's text, or of 1
      when the page has no quantity input. */
  function QuantityRead(input: QuantityInput?): (q: Option<int>)
    reads input
    ensures input == null ==> q == Some(1)
    ensures input != null ==> q == input.value
  {
    if input == null then Some(1) else input.value
  }

  /** Click on "add to cart". `cartItemId` is the id addToCart would generate.
      Returns whether the product was added; a refused click only shows a
      message and leaves the store as it was. */
  method OnAddToCartClick(store: Store, input: QuantityInput?, select: Option<SizeSelect>,
                          page: PageText, cartItemId: string)
    returns (added: bool)
    modifies store
    ensures added <==> !SizeMissing(select)
    ensures !added ==> store.stored == old(store.stored) && store.badge == old(store.badge)
    ensures added ==>
      store.stored == Some(old(store.Items())
                           + [ProductFromPage(page, ChosenSize(select), old(QuantityRead(input))).(id := cartItemId)])
      && store.Valid()
  {
    var size := ChosenSize(select);
    var quantity := QuantityRead(input);
    if select.Some? && |select.value.optionValues| > 1 {
      var hasNonEmptyOptions := HasNonEmptyOption(select.value.optionValues);
      if hasNonEmptyOptions && size == "" {
        return false;
      }
    }
    var product := ProductFromPage(page, size, quantity);
    store.AddToCart(product, cartItemId);
    added := true;
  }
}
