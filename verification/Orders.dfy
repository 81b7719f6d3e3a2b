/** The rows shared by checkout, stock, tax and refunds. Money is in paise and
    GST rates are in hundredths of a percent (500 is 5%). */
module Orders {
  datatype Option<+T> = None | Some(value: T)

  type Positive = x: int | x >= 1 witness 1

  /** One component size of a combo: its MRP, packs per combo, and tax class. */
  datatype RecipeRow = RecipeRow(variant: nat, price: nat, perCombo: nat, rate: nat, hsn: string)

  /** A cart line with the catalogue figures read for it at checkout. */
  datatype CartLine =
    | ProductLine(product: nat, variant: Option<nat>, price: nat, quantity: Positive, rate: nat, hsn: string)
    | ComboLine(combo: nat, price: nat, quantity: Positive, recipe: seq<RecipeRow>, rate: nat)
  {
    function Total(): nat {
      price * quantity
    }
  }

  /** One taxed component of a combo order line. */
  datatype Component = Component(variant: nat, units: nat, rate: int, hsn: string, amount: int, tax: int)

  datatype Bought =
    | BoughtVariant(product: nat, variant: nat)
    | BoughtProduct(product: nat)
    | BoughtCombo(combo: nat)

  datatype OrderItem = OrderItem(
    bought: Bought,
    quantity: nat,
    discount: int,
    unitPrice: int,
    finalPrice: int,
    rate: int,
    hsn: string,
    tax: int,
    components: seq<Component>)

  /** The money side of an order row. */
  datatype Bill = Bill(
    items: seq<OrderItem>,
    subtotal: int,
    discount: int,
    shippingCharge: int,
    shippingTax: int,
    tax: int,
    total: int,
    taxInclusive: bool)
  {
    function TotalTax(): int {
      tax + shippingTax
    }
  }

  /** Deployment settings that price an order. */
  datatype Policy = Policy(freeShippingThreshold: int, shippingFee: nat, shippingRate: nat, defaultRate: nat)
}
