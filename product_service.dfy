/** The product service: read-only lookups over the stored products. */
module ProductService {
  import opened Wrappers
  import opened Primitives
  import opened Errors
  import opened Contracts
  import opened Domain

  /** The primary key: each product is stored under its own Id. */
  predicate KeyedById(products: map<Guid, Product>) {
    forall id | id in products :: products[id].Id == id
  }

  function ToDto(product: Product): ProductDto {
    ProductDto(product.Id, product.Name, product.Price)
  }

  /** Finds a product by key; a missing one is a NotFoundException. */
  function GetProduct(products: map<Guid, Product>, productId: Guid): (r: Result<ProductDto, Exception>)
    requires KeyedById(products)
    ensures r.Success? <==> productId in products
    ensures r.Success? ==> r.value.Id == productId
                           && r.value.Name == products[productId].Name
                           && r.value.Price == products[productId].Price
    ensures r.Failure? ==> r.error == NotFoundException(ProductNotFound)
  {
    if productId in products then Success(ToDto(products[productId]))
    else Failure(NotFoundException(ProductNotFound))
  }

  /** Lists every product, projected field for field. */
  function GetProducts(products: map<Guid, Product>): (r: set<ProductDto>)
    requires KeyedById(products)
    ensures forall d :: d in r <==> d.Id in products && d == ToDto(products[d.Id])
  {
    DtosOfKeys(products, products.Keys)
  }

  /** The listing holds exactly one DTO per stored product. */
  lemma GetProductsCardinality(products: map<Guid, Product>)
    requires KeyedById(products)
    ensures |GetProducts(products)| == |products|
  {
    DtosOfKeysCardinality(products, products.Keys);
  }

  /** The DTOs of the products stored under the given keys. */
  function DtosOfKeys(products: map<Guid, Product>, keys: set<Guid>): set<ProductDto>
    requires keys <= products.Keys
  {
    set id | id in keys :: ToDto(products[id])
  }

  lemma {:induction false} DtosOfKeysCardinality(products: map<Guid, Product>, keys: set<Guid>)
    requires KeyedById(products) && keys <= products.Keys
    ensures |DtosOfKeys(products, keys)| == |keys|
  {
    if keys != {} {
      var k :| k in keys;
      DtosOfKeysCardinality(products, keys - {k});
      assert DtosOfKeys(products, keys) == DtosOfKeys(products, keys - {k}) + {ToDto(products[k])};
    }
  }

  /** Listing and looking up agree: a DTO is listed exactly when looking up its Id returns it. */
  lemma ListingAgreesWithLookup(products: map<Guid, Product>, d: ProductDto)
    requires KeyedById(products)
    ensures d in GetProducts(products) <==> GetProduct(products, d.Id) == Success(d)
  {
  }
}
