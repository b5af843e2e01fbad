/**
 * The records the console's client exchanges with its stores and with device storage:
 * the signed-in user, a product with its optional thumbnail, the partial-product patches
 * that `{...p, ...patch}` merges in, and the browser's `File` metadata.
 */
module Entities {
  import opened Outcomes

  datatype Phone = Phone(country: string, ddd: string, number: string)

  /** The authenticated user; only `name` is read by the core (as the activity actor). */
  datatype User = User(
    id: string, name: string, email: string, platformRole: string, status: string,
    emailStatus: string, createdAt: string, updatedAt: string, phone: Phone)

  /** An image attached to a product; the local adapter stores the image inline as a data URL. */
  datatype Thumbnail = Thumbnail(
    id: string, userId: string, url: string, size: nat, originalName: string, mimeType: string,
    key: string, idModule: string, createdAt: string, updatedAt: string)

  datatype Product = Product(
    id: string, userId: string, title: string, description: string, status: bool,
    idThumbnail: string, createdAt: string, updatedAt: string, thumbnail: Option<Thumbnail>)

  /** The id of a product, as the key `find`, `findIndex` and `filter` compare against. */
  function ProductId(p: Product): string { p.id }

  /**
   * A `Partial<Product>`: each field is either absent (None) or present with a value.
   * A present `thumbnail` holds the new optional thumbnail.
   */
  datatype ProductPatch = ProductPatch(
    id: Option<string>, userId: Option<string>, title: Option<string>,
    description: Option<string>, status: Option<bool>, idThumbnail: Option<string>,
    createdAt: Option<string>, updatedAt: Option<string>, thumbnail: Option<Option<Thumbnail>>)

  /** The patch with no field present. */
  const EmptyPatch := ProductPatch(None, None, None, None, None, None, None, None, None)

  /** `{...p, ...patch}`: every field present in the patch overrides the product's. */
  function Merge(p: Product, patch: ProductPatch): (r: Product)
    ensures patch == EmptyPatch ==> r == p
    ensures (patch.id.Some? ==> r.id == patch.id.value) && (patch.id.None? ==> r.id == p.id)
    ensures (patch.userId.Some? ==> r.userId == patch.userId.value) && (patch.userId.None? ==> r.userId == p.userId)
    ensures (patch.title.Some? ==> r.title == patch.title.value) && (patch.title.None? ==> r.title == p.title)
    ensures (patch.description.Some? ==> r.description == patch.description.value) && (patch.description.None? ==> r.description == p.description)
    ensures (patch.status.Some? ==> r.status == patch.status.value) && (patch.status.None? ==> r.status == p.status)
    ensures (patch.idThumbnail.Some? ==> r.idThumbnail == patch.idThumbnail.value) && (patch.idThumbnail.None? ==> r.idThumbnail == p.idThumbnail)
    ensures (patch.createdAt.Some? ==> r.createdAt == patch.createdAt.value) && (patch.createdAt.None? ==> r.createdAt == p.createdAt)
    ensures (patch.updatedAt.Some? ==> r.updatedAt == patch.updatedAt.value) && (patch.updatedAt.None? ==> r.updatedAt == p.updatedAt)
    ensures (patch.thumbnail.Some? ==> r.thumbnail == patch.thumbnail.value) && (patch.thumbnail.None? ==> r.thumbnail == p.thumbnail)
  {
    Product(
      patch.id.GetOr(p.id), patch.userId.GetOr(p.userId), patch.title.GetOr(p.title),
      patch.description.GetOr(p.description), patch.status.GetOr(p.status),
      patch.idThumbnail.GetOr(p.idThumbnail), patch.createdAt.GetOr(p.createdAt),
      patch.updatedAt.GetOr(p.updatedAt), patch.thumbnail.GetOr(p.thumbnail))
  }

  /** Merging the empty patch is the identity, and merging is idempotent. */
  lemma MergeLaws(p: Product, patch: ProductPatch)
    ensures Merge(p, EmptyPatch) == p
    ensures Merge(Merge(p, patch), patch) == Merge(p, patch)
  {
  }

  /** A product as the create form submits it: a `Product` without id, owner and timestamps. */
  datatype ProductDraft = ProductDraft(
    title: string, description: string, status: bool, idThumbnail: string,
    thumbnail: Option<Thumbnail>)

  /** What the core reads of a browser `File`: its name, its size in bytes and its MIME type. */
  datatype FileInfo = FileInfo(name: string, size: nat, mimeType: string)
}
