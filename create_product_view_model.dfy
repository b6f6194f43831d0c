/**
 * The create-product wizard's view model: the form fields, the validation
 * that picks the first missing field, and the submission state. Parsing of
 * the price text (`String.toDoubleOrNull`) is a parameter `parse`. Image
 * upload is not modelled; how the upload-and-create coroutine ends is handed
 * to `OnSubmitFinished` as a parameter.
 */
module CreateProduct {
  import opened Util
  import opened Text
  import opened ProductModel
  import CreateProductUseCase

  const BrandMessage := "Por favor ingresa la marca."
  const ModelMessage := "Por favor ingresa el modelo."
  const StorageMessage := "Por favor ingresa el almacenamiento."
  const PriceMessage := "Por favor ingresa un precio válido."
  const ImeiMessage := "Por favor ingresa el IMEI."
  const UploadErrorPrefix := "Error subiendo imágenes: "

  /** `validate()`: the message for the first invalid field, in form order, or none. */
  function Validate(brand: string, model: string, storage: string, price: real, imei: string): (r: Option<string>)
    ensures r.Some? ==> r.value in {BrandMessage, ModelMessage, StorageMessage, PriceMessage, ImeiMessage}
  {
    if IsBlank(brand) then Some(BrandMessage)
    else if IsBlank(model) then Some(ModelMessage)
    else if IsBlank(storage) then Some(StorageMessage)
    else if price <= 0.0 then Some(PriceMessage)
    else if IsBlank(imei) then Some(ImeiMessage)
    else None
  }

  /** The form is accepted exactly when brand, model, storage and IMEI are filled in and the price is positive. */
  lemma ValidateAcceptsExactly(brand: string, model: string, storage: string, price: real, imei: string)
    ensures Validate(brand, model, storage, price, imei).None?
        <==> !IsBlank(brand) && !IsBlank(model) && !IsBlank(storage) && price > 0.0 && !IsBlank(imei)
  {
  }

  /** Each message is reported exactly when its field is the first invalid one. */
  lemma ValidateReportsFirstFailure(brand: string, model: string, storage: string, price: real, imei: string)
    ensures var v := Validate(brand, model, storage, price, imei);
      && (v == Some(BrandMessage) <==> IsBlank(brand))
      && (v == Some(ModelMessage) <==> !IsBlank(brand) && IsBlank(model))
      && (v == Some(StorageMessage) <==> !IsBlank(brand) && !IsBlank(model) && IsBlank(storage))
      && (v == Some(PriceMessage) <==> !IsBlank(brand) && !IsBlank(model) && !IsBlank(storage) && price <= 0.0)
      && (v == Some(ImeiMessage) <==> !IsBlank(brand) && !IsBlank(model) && !IsBlank(storage) && price > 0.0 && IsBlank(imei))
  {
  }

  /** How the upload-and-create coroutine ended. */
  datatype SubmitOutcome =
    | Created(repositoryResult: Resource<Product>)   // the repository answered the create request
    | UploadFailed(message: string)                  // an upload threw, with this message

  class CreateProductViewModel {
    var brand: string
    var model: string
    var storage: string
    var price: real
    var priceText: string
    var imei: string
    var description: string
    var images: seq<string>
    var boxImageUrl: string
    var invoiceUrl: string
    var state: Resource<()>

    constructor ()
      ensures brand == model == storage == priceText == imei == description == boxImageUrl == invoiceUrl == ""
      ensures price == 0.0 && images == [] && state == Idle
    {
      brand, model, storage, price, priceText := "", "", "", 0.0, "";
      imei, description, images, boxImageUrl, invoiceUrl := "", "", [], "", "";
      state := Idle;
    }

    method OnBrandChanged(value: string)
      modifies this`brand
      ensures brand == value
    {
      brand := value;
    }

    method OnModelChanged(value: string)
      modifies this`model
      ensures model == value
    {
      model := value;
    }

    method OnStorageChanged(value: string)
      modifies this`storage
      ensures storage == value
    {
      storage := value;
    }

    method OnPriceChanged(value: real)
      modifies this`price
      ensures price == value
    {
      price := value;
    }

    /** Always keeps the text; takes the price from it only when it parses. */
    method OnPriceTextChanged(text: string, parse: string -> Option<real>)
      modifies this`priceText, this`price
      ensures priceText == text
      ensures price == parse(text).GetOr(old(price))
    {
      priceText := text;
      var parsed := parse(text);
      if parsed.Some? {
        price := parsed.value;
      }
    }

    method OnImeiChanged(value: string)
      modifies this`imei
      ensures imei == value
    {
      imei := value;
    }

    method OnDescriptionChanged(value: string)
      modifies this`description
      ensures description == value
    {
      description := value;
    }

    /** Appends `uri` after the images already chosen. */
    method AddImage(uri: string)
      modifies this`images
      ensures images == old(images) + [uri]
    {
      images := images + [uri];
    }

    method SetBoxImage(uri: string)
      modifies this`boxImageUrl
      ensures boxImageUrl == uri
    {
      boxImageUrl := uri;
    }

    method SetInvoiceImage(uri: string)
      modifies this`invoiceUrl
      ensures invoiceUrl == uri
    {
      invoiceUrl := uri;
    }

    /** `submit()` up to the uploads: a validation failure is reported, otherwise loading starts (`started`). */
    method Submit() returns (started: bool)
      modifies this`state
      ensures var v := Validate(brand, model, storage, price, imei);
        && (started <==> v.None?)
        && state == if started then Loading else Error(v.value)
    {
      var message := Validate(brand, model, storage, price, imei);
      if message.Some? {
        state := Error(message.value);
        return false;
      }
      state := Loading;
      started := true;
    }

    /**
     * The end of the upload-and-create coroutine. The use case never answers
     * `Idle` or `Loading`, so the `TODO()` branches for them are unreachable.
     */
    method OnSubmitFinished(outcome: SubmitOutcome)
      modifies this`state
      ensures state.Success? || state.Error?
      ensures outcome.UploadFailed? ==> state == Error(UploadErrorPrefix + outcome.message)
      ensures outcome.Created? ==>
        && (state.Success? <==> outcome.repositoryResult.Success?)
        && (outcome.repositoryResult.Error? ==> state == Error(outcome.repositoryResult.message))
        && (outcome.repositoryResult.Idle? || outcome.repositoryResult.Loading? ==>
              state == Error(CreateProductUseCase.UnknownStateMessage))
    {
      match outcome
      case UploadFailed(message) =>
        state := Error(UploadErrorPrefix + message);
      case Created(repositoryResult) =>
        var result := CreateProductUseCase.Invoke(repositoryResult);
        match result {
          case Success(_) =>
            state := Success(());
          case Error(message) =>
            state := Error(message);
          case Idle =>
            assert false;
          case Loading =>
            assert false;
        }
    }
  }
}
