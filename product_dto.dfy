/**
 * The product as the REST API sends it (`ProductDto`) and as the UI uses it
 * (`Product`), with the field mapping between the two. A Kotlin `Double`
 * price is a `real`: the app only compares it with zero.
 */
module ProductModel {

  /** The domain product shown by the screens. */
  datatype Product = Product(
    id: string,
    sellerId: string,
    brand: string,
    model: string,
    storage: string,
    price: real,
    imei: string,
    description: string,
    images: seq<string>,
    box: string,
    invoiceUri: string,
    status: string,
    active: bool,
    createdAt: string,
    updatedAt: string
  )

  /** The JSON representation of a product in the API. */
  datatype ProductDto = ProductDto(
    id: string,
    sellerId: string,
    brand: string,
    model: string,
    storage: string,
    price: real,
    imei: string,
    description: string,
    imageUrls: seq<string>,
    boxImageUrl: string,
    invoiceUrl: string,
    status: string,
    active: bool,
    createdAt: string,
    updatedAt: string
  )

  /** `ProductDto.toDomain()`: a field-by-field copy, renaming the three URL fields. */
  function DtoToDomain(d: ProductDto): (p: Product)
    ensures p.id == d.id && p.sellerId == d.sellerId && p.status == d.status && p.active == d.active
    ensures p.brand == d.brand && p.model == d.model && p.storage == d.storage
    ensures p.price == d.price && p.imei == d.imei && p.description == d.description
    ensures p.images == d.imageUrls && p.box == d.boxImageUrl && p.invoiceUri == d.invoiceUrl
    ensures p.createdAt == d.createdAt && p.updatedAt == d.updatedAt
  {
    Product(
      id := d.id,
      brand := d.brand,
      model := d.model,
      storage := d.storage,
      price := d.price,
      description := d.description,
      box := d.boxImageUrl,
      active := d.active,
      images := d.imageUrls,
      invoiceUri := d.invoiceUrl,
      createdAt := d.createdAt,
      updatedAt := d.updatedAt,
      imei := d.imei,
      sellerId := d.sellerId,
      status := d.status)
  }

  /** The direct mapping loses nothing: different DTOs give different products. */
  lemma DtoToDomainInjective(a: ProductDto, b: ProductDto)
    requires DtoToDomain(a) == DtoToDomain(b)
    ensures a == b
  {
  }
}
