/** The "new product" dialog: a form of six fields and a submit that runs an ordered chain of
    guards before asking the backend to create the product. */
module ProductModal {
  import opened Common
  import opened Types

  const NoUser := "Usuario no autenticado"
  const NameRequired := "El nombre del producto es requerido"
  const BadPrice := "El precio debe ser mayor a 0"
  const PlatformIdRequired := "El ID de la plataforma es requerido"
  const CreateFailed := "Error al crear el producto"
  const CreateThrew := "Error inesperado al guardar el producto"

  /** The platform a new product starts with. */
  const DefaultPlatform := "mercadolibre"

  /** The form's fields; `price` holds the parsed number of its input, `None` for the empty
      input. */
  datatype ProductFields = ProductFields(
    name: string,
    description: string,
    price: Option<real>,
    imageUrl: string,
    platform: string,
    platformId: string)

  /** A change event of one named input, with the value it carries. */
  datatype ProductInput =
    | NameInput(name: string)
    | DescriptionInput(description: string)
    | PriceInput(price: Option<real>)
    | ImageUrlInput(imageUrl: string)
    | PlatformInput(platform: string)
    | PlatformIdInput(platformId: string)

  /** The record handed to `createProduct`. */
  datatype ProductRequest = ProductRequest(
    name: string,
    description: string,
    price: real,
    imageUrl: string,
    platform: string,
    platformId: string,
    userId: string)

  /** The form as it opens, and as it is reset after a product is saved. */
  function EmptyFields(): ProductFields {
    ProductFields("", "", None, "", DefaultPlatform, "")
  }

  /** The form after one input event: the named field takes the value, the others are kept. */
  function Apply(fields: ProductFields, input: ProductInput): (r: ProductFields)
    ensures r.name == (if input.NameInput? then input.name else fields.name)
    ensures r.description == (if input.DescriptionInput? then input.description else fields.description)
    ensures r.price == (if input.PriceInput? then input.price else fields.price)
    ensures r.imageUrl == (if input.ImageUrlInput? then input.imageUrl else fields.imageUrl)
    ensures r.platform == (if input.PlatformInput? then input.platform else fields.platform)
    ensures r.platformId == (if input.PlatformIdInput? then input.platformId else fields.platformId)
  {
    match input
    case NameInput(v) => fields.(name := v)
    case DescriptionInput(v) => fields.(description := v)
    case PriceInput(v) => fields.(price := v)
    case ImageUrlInput(v) => fields.(imageUrl := v)
    case PlatformInput(v) => fields.(platform := v)
    case PlatformIdInput(v) => fields.(platformId := v)
  }

  /** The message of the first guard of `handleSubmit` that fails, in the source's order: the
      user, the name, the price, the platform identifier. `None` when all pass. */
  function Rejection(user: Option<User>, fields: ProductFields): (msg: Option<string>)
    ensures msg.None? <==>
      user.Some? && !IsBlank(fields.name) && fields.price.Some? && fields.price.value > 0.0
      && !IsBlank(fields.platformId)
    ensures user.None? ==> msg == Some(NoUser)
    ensures user.Some? && IsBlank(fields.name) ==> msg == Some(NameRequired)
    ensures user.Some? && !IsBlank(fields.name) && (fields.price.None? || fields.price.value <= 0.0) ==>
      msg == Some(BadPrice)
    ensures msg == Some(PlatformIdRequired) <==>
      user.Some? && !IsBlank(fields.name) && fields.price.Some? && fields.price.value > 0.0
      && IsBlank(fields.platformId)
  {
    if user.None? then Some(NoUser)
    else if IsBlank(fields.name) then Some(NameRequired)
    else if fields.price.None? || fields.price.value <= 0.0 then Some(BadPrice)
    else if IsBlank(fields.platformId) then Some(PlatformIdRequired)
    else None
  }

  /** A name made only of white space, or empty, is turned away whatever the other fields
      hold, as long as there is a user; the description and the image address are never
      looked at. */
  lemma BlankNameRejected(user: User, fields: ProductFields, description: string, imageUrl: string)
    requires forall i :: 0 <= i < |fields.name| ==> IsSpace(fields.name[i])
    ensures Rejection(Some(user), fields.(description := description, imageUrl := imageUrl)) == Some(NameRequired)
  {
    BlankIffAllSpace(fields.name);
  }

  /** The form as it opens, or as it is reset, cannot be sent: its name is empty. */
  lemma EmptyFormIsRejected(user: Option<User>)
    ensures Rejection(user, EmptyFields()).Some?
  {
  }

  class ProductForm {
    var formData: ProductFields
    var loading: bool
    var error: string

    constructor ()
      ensures formData == EmptyFields() && !loading && error == ""
    {
      formData, loading, error := EmptyFields(), false, "";
    }

    /** `handleInputChange`: the named field takes the value and the error is cleared. */
    method HandleInputChange(input: ProductInput)
      modifies this`formData, this`error
      ensures formData == Apply(old(formData), input) && error == ""
    {
      formData := Apply(formData, input);
      error := "";
    }

    /** `handleSubmit`, with the user and the backend's answer to `createProduct` as
        parameters. `request` is the record sent, if the call is made; `saved` says whether
        `onProductSaved` and `onClose` are called. The name is sent as typed, untrimmed. */
    method Submit(user: Option<User>, outcome: Backend) returns (request: Option<ProductRequest>, saved: bool)
      modifies this
      ensures Rejection(user, old(formData)).Some? ==>
        && error == Rejection(user, old(formData)).value
        && loading == old(loading) && formData == old(formData)
        && request.None? && !saved
      ensures Rejection(user, old(formData)).None? ==>
        && request == Some(ProductRequest(
             old(formData.name), old(formData.description), old(formData.price.value),
             old(formData.imageUrl), old(formData.platform), old(formData.platformId), user.value.id))
        && !loading
        && (saved <==> outcome.Succeeded?)
        && (outcome.Succeeded? ==> error == "" && formData == EmptyFields())
        && (outcome.Failed? ==> error == CreateFailed && formData == old(formData))
        && (outcome.Threw? ==> error == CreateThrew && formData == old(formData))
    {
      request, saved := None, false;
      var rejection := Rejection(user, formData);
      if rejection.Some? {
        error := rejection.value;
        return;
      }
      loading := true;
      error := "";
      request := Some(ProductRequest(formData.name, formData.description, formData.price.value,
                                     formData.imageUrl, formData.platform, formData.platformId, user.value.id));
      match outcome {
        case Failed(_) => error := CreateFailed;
        case Threw(_) => error := CreateThrew;
        case Succeeded =>
          saved := true;
          formData := EmptyFields();
      }
      loading := false;
    }
  }
}
