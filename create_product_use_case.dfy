/**
 * `CreateProductUseCase`: forwards the repository's answer for a new product,
 * keeping only whether it succeeded and, if not, its message.
 */
module CreateProductUseCase {
  import opened Util
  import opened ProductModel

  /** The message reported when the repository answers with neither success nor error. */
  const UnknownStateMessage := "Estado desconocido"

  /** `invoke`: maps the repository's `Resource<Product>` to a `Resource<Unit>`. */
  function Invoke(res: Resource<Product>): (r: Resource<()>)
    ensures !r.Idle? && !r.Loading?
    ensures r.Success? <==> res.Success?
    ensures res.Error? ==> r == Error(res.message)
    ensures (res.Idle? || res.Loading?) ==> r == Error(UnknownStateMessage)
  {
    match res
    case Success(_) => Success(())
    case Error(message) => Error(message)
    case _ => Error(UnknownStateMessage)
  }
}
