/**
 * The row of the local `products` table (`ProductEntity`): the product's
 * business fields, the image URLs packed into one comma-joined string, and
 * three sync-metadata columns. Conversions from the API record and to the
 * domain product. The wall clock (`System.currentTimeMillis()`) is a
 * parameter `now`.
 */
module LocalEntity {
  import opened Text
  import opened ProductModel

  datatype ProductEntity = ProductEntity(
    id: string,
    sellerId: string,
    brand: string,
    model: string,
    storage: string,
    price: real,
    imei: string,
    description: string,
    imagesJson: string,
    box: string,
    invoiceUri: string,
    status: string,
    active: bool,
    createdAt: string,
    updatedAt: string,
    isSynced: bool,
    lastModified: int,
    deletedLocally: bool
  )

  /**
   * The primary constructor called without the three sync arguments: the
   * row starts out dirty, not tombstoned, and stamped with the current time.
   */
  function NewEntity(
    id: string, sellerId: string, brand: string, model: string, storage: string,
    price: real, imei: string, description: string, imagesJson: string, box: string,
    invoiceUri: string, status: string, active: bool, createdAt: string, updatedAt: string,
    now: int): (e: ProductEntity)
    ensures !e.isSynced && !e.deletedLocally && e.lastModified == now
    ensures e.id == id && e.imagesJson == imagesJson
  {
    ProductEntity(id, sellerId, brand, model, storage, price, imei, description, imagesJson,
                  box, invoiceUri, status, active, createdAt, updatedAt,
                  isSynced := false, lastModified := now, deletedLocally := false)
  }

  /** `ProductEntity.toDomain()`: the image list is `imagesJson.split(",").filter { it.isNotEmpty() }`. */
  function EntityToDomain(e: ProductEntity): (p: Product)
    ensures forall i :: 0 <= i < |p.images| ==> p.images[i] != ""
    ensures p.id == e.id && p.box == e.box && p.invoiceUri == e.invoiceUri
  {
    Product(
      id := e.id,
      sellerId := e.sellerId,
      brand := e.brand,
      model := e.model,
      storage := e.storage,
      price := e.price,
      imei := e.imei,
      description := e.description,
      images := DropEmpty(Split(e.imagesJson)),
      box := e.box,
      invoiceUri := e.invoiceUri,
      status := e.status,
      active := e.active,
      createdAt := e.createdAt,
      updatedAt := e.updatedAt)
  }

  /** `ProductDto.toEntity()`: a server record is stored as synced and not deleted. */
  function DtoToEntity(d: ProductDto, now: int): (e: ProductEntity)
    ensures e.isSynced && !e.deletedLocally && e.lastModified == now
    ensures e.id == d.id && e.sellerId == d.sellerId && e.status == d.status && e.active == d.active
    ensures e.brand == d.brand && e.model == d.model && e.storage == d.storage
    ensures e.price == d.price && e.imei == d.imei && e.description == d.description
    ensures e.box == d.boxImageUrl && e.invoiceUri == d.invoiceUrl && e.imagesJson == Join(d.imageUrls)
    ensures e.createdAt == d.createdAt && e.updatedAt == d.updatedAt
  {
    ProductEntity(
      id := d.id,
      sellerId := d.sellerId,
      brand := d.brand,
      model := d.model,
      storage := d.storage,
      price := d.price,
      imei := d.imei,
      description := d.description,
      imagesJson := Join(d.imageUrls),
      box := d.boxImageUrl,
      invoiceUri := d.invoiceUrl,
      status := d.status,
      active := d.active,
      createdAt := d.createdAt,
      updatedAt := d.updatedAt,
      isSynced := true,
      lastModified := now,
      deletedLocally := false)
  }

  /** No image URL is empty or contains the separator. */
  predicate PlainImageUrls(urls: seq<string>) {
    forall i :: 0 <= i < |urls| ==> urls[i] != "" && ',' !in urls[i]
  }

  /** Going through the table keeps the image list when every URL is plain. */
  lemma ImagesRoundTrip(d: ProductDto, now: int)
    requires PlainImageUrls(d.imageUrls)
    ensures EntityToDomain(DtoToEntity(d, now)).images == d.imageUrls
  {
    SplitJoinRoundTrip(d.imageUrls);
  }

  /**
   * In general the cached image list is every URL re-split on its commas,
   * with empty pieces dropped.
   */
  lemma ImagesThroughTable(d: ProductDto, now: int)
    ensures EntityToDomain(DtoToEntity(d, now)).images == SplitPieces(d.imageUrls)
  {
    SplitJoin(d.imageUrls);
  }

  /** An empty URL is lost on the way through the table. */
  lemma ImagesRoundTripDropsEmptyUrl(d: ProductDto, now: int)
    requires d.imageUrls == ["", "u"]
    ensures EntityToDomain(DtoToEntity(d, now)).images == ["u"]
  {
    ImagesThroughTable(d, now);
    assert Split("") == [""];
    SplitNoComma("u");
    assert SplitPieces([]) == [];
    assert SplitPieces(["u"]) == ["u"];
  }

  /** A URL holding a comma comes back as two URLs. */
  lemma ImagesRoundTripSplitsCommaUrl(d: ProductDto, now: int)
    requires d.imageUrls == ["a,b"]
    ensures EntityToDomain(DtoToEntity(d, now)).images == ["a", "b"]
  {
    ImagesThroughTable(d, now);
    SplitAppend("a", "b");
    assert "a,b" == "a" + "," + "b";
    SplitNoComma("a");
    SplitNoComma("b");
    assert DropEmpty(["a", "b"]) == ["a", "b"];
    assert SplitPieces([]) == [];
  }

  /**
   * With plain image URLs, the product read back from the local table equals
   * the product mapped directly from the API record.
   */
  lemma CachedPathAgreesWithDirectPath(d: ProductDto, now: int)
    requires PlainImageUrls(d.imageUrls)
    ensures EntityToDomain(DtoToEntity(d, now)) == DtoToDomain(d)
  {
    ImagesRoundTrip(d, now);
  }

  /** The domain product does not depend on the sync metadata of the row. */
  lemma EntityToDomainIgnoresSyncMetadata(e: ProductEntity, isSynced: bool, lastModified: int, deletedLocally: bool)
    ensures EntityToDomain(e.(isSynced := isSynced, lastModified := lastModified, deletedLocally := deletedLocally))
         == EntityToDomain(e)
  {
  }
}
