/** A line item of an order: a self-validating value object. Prices are
    decimals, modelled exactly as reals. */
module ProductEntity {
  import opened Results
  import opened SystemTypes

  datatype Product = Product(sku: string, name: string, description: string, price: real, quantity: int)

  /** The fields a successfully created product always has. */
  predicate WellFormed(p: Product)
  {
    && !IsNullOrWhiteSpace(Some(p.sku))
    && !IsNullOrWhiteSpace(Some(p.name))
    && !IsNullOrWhiteSpace(Some(p.description))
    && p.price > 0.0
    && p.quantity > 0
  }

  /** `Product.Create`: checks sku, name, description, price and quantity, in
      that order, and reports only the first failing check. */
  function Create(sku: Option<string>, name: Option<string>, description: Option<string>,
                  price: real, quantity: int): (r: Result<Product>)
    // accepted exactly when every check passes, and then every field is echoed
    ensures r.Ok? <==> && !IsNullOrWhiteSpace(sku) && !IsNullOrWhiteSpace(name)
                       && !IsNullOrWhiteSpace(description) && price > 0.0 && quantity > 0
    ensures r.Ok? ==> && Some(r.value.sku) == sku && Some(r.value.name) == name
                      && Some(r.value.description) == description
                      && r.value.price == price && r.value.quantity == quantity
                      && WellFormed(r.value)
    // the error reported is that of the first failing check
    ensures IsNullOrWhiteSpace(sku) ==> r == Err(SkuEmpty)
    ensures !IsNullOrWhiteSpace(sku) && IsNullOrWhiteSpace(name) ==> r == Err(NameEmpty)
    ensures !IsNullOrWhiteSpace(sku) && !IsNullOrWhiteSpace(name) && IsNullOrWhiteSpace(description)
            ==> r == Err(DescriptionEmpty)
    ensures (!IsNullOrWhiteSpace(sku) && !IsNullOrWhiteSpace(name) && !IsNullOrWhiteSpace(description)
             && price <= 0.0)
            ==> r == Err(ProductPriceLessOrEquals0)
    ensures (!IsNullOrWhiteSpace(sku) && !IsNullOrWhiteSpace(name) && !IsNullOrWhiteSpace(description)
             && price > 0.0 && quantity <= 0)
            ==> r == Err(ProductQuantityLessOrEquals0)
  {
    if IsNullOrWhiteSpace(sku) then Err(SkuEmpty)
    else if IsNullOrWhiteSpace(name) then Err(NameEmpty)
    else if IsNullOrWhiteSpace(description) then Err(DescriptionEmpty)
    else if price <= 0.0 then Err(ProductPriceLessOrEquals0)
    else if quantity <= 0 then Err(ProductQuantityLessOrEquals0)
    else Ok(Product(sku.value, name.value, description.value, price, quantity))
  }

  /** The value of one line item: its price times its quantity. */
  function LineValue(p: Product): real
  {
    p.price * (p.quantity as real)
  }

  /** `products.Sum(x => x.Price * x.Quantity)`: the exact sum of the line values. */
  function Total(ps: seq<Product>): real
  {
    if ps == [] then 0.0 else LineValue(ps[0]) + Total(ps[1..])
  }

  /** Every product that `Create` accepts has a positive price and quantity,
      so any non-empty list of such products has a positive total. */
  lemma {:induction false} TotalOfWellFormedIsPositive(ps: seq<Product>)
    requires |ps| > 0
    requires forall i :: 0 <= i < |ps| ==> WellFormed(ps[i])
    ensures Total(ps) > 0.0
  {
    assert LineValue(ps[0]) > 0.0 by {
      PositiveProduct(ps[0].price, ps[0].quantity as real);
    }
    if |ps| > 1 {
      TotalOfWellFormedIsPositive(ps[1..]);
    }
  }

  lemma PositiveProduct(x: real, y: real)
    requires x > 0.0 && y > 0.0
    ensures x * y > 0.0
  {
  }
}
