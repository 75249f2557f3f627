/** The "register a sale" dialog: a form whose product or quantity change recomputes the
    total from the product's price, and a submit that runs an ordered chain of guards before
    asking the backend to create the sale. */
module SaleModal {
  import opened Common
  import opened Types

  const NoUser := "Usuario no autenticado"
  const NoProductChosen := "Selecciona un producto"
  const BadQuantity := "La cantidad debe ser mayor a 0"
  const BadTotal := "El monto total debe ser mayor a 0"
  const ProductNotFound := "Producto no encontrado"
  const CreateFailed := "Error al registrar la venta"
  const CreateThrew := "Error inesperado al registrar la venta"

  /** The form's fields. `quantity` and `totalAmount` hold the parsed number of their input;
      `None` stands for the empty input. */
  datatype SaleFields = SaleFields(productId: string, quantity: Option<int>, totalAmount: Option<real>, saleDate: string)

  /** A change event of one named input, with the value it carries. */
  datatype SaleInput =
    | ProductIdInput(productId: string)
    | QuantityInput(quantity: Option<int>)
    | TotalAmountInput(totalAmount: Option<real>)
    | SaleDateInput(saleDate: string)

  /** The record handed to `createSale`. */
  datatype SaleRequest = SaleRequest(
    productId: string,
    quantity: int,
    totalAmount: real,
    saleDate: string,
    platform: string,
    userId: string)

  /** The form as it opens, and as it is reset after a sale is saved; `today` is the local
      date string the source computes from the clock. */
  function EmptyFields(today: string): SaleFields {
    SaleFields("", Some(1), None, today)
  }

  /** Product `i` is the first of `products` with identifier `id`. */
  predicate IsFirstWithId(products: seq<Product>, id: string, i: int) {
    0 <= i < |products| && products[i].id == id && forall j :: 0 <= j < i ==> products[j].id != id
  }

  /** The position `products.find(p => p.id === id)` stops at: the first product with that
      identifier, `None` when there is none. */
  function FindIndex(products: seq<Product>, id: string): (k: Option<nat>)
    ensures k.None? <==> forall i :: 0 <= i < |products| ==> products[i].id != id
    ensures k.Some? ==> IsFirstWithId(products, id, k.value)
  {
    if products == [] then None
    else if products[0].id == id then Some(0)
    else
      var k := FindIndex(products[1..], id);
      assert forall i :: 0 < i < |products| ==> products[i] == products[1..][i - 1];
      if k.Some? then Some(k.value + 1) else None
  }

  /** `products.find(p => p.id === id)`. */
  function FindProduct(products: seq<Product>, id: string): (r: Option<Product>)
    ensures r.None? <==> forall i :: 0 <= i < |products| ==> products[i].id != id
    ensures r.Some? ==> r.value.id == id && r.value in products
    ensures r.Some? ==> exists i :: IsFirstWithId(products, id, i) && products[i] == r.value
  {
    var k := FindIndex(products, id);
    if k.Some? then Some(products[k.value]) else None
  }

  /** `parseInt(quantity) || 0`: the parsed quantity, 0 for the empty input. */
  function QuantityOrZero(quantity: Option<int>): int {
    if quantity.Some? then quantity.value else 0
  }

  /** `price * quantity`, the amount of `quantity` units at `price`. */
  function LineTotal(price: real, quantity: int): real {
    price * quantity as real
  }

  /** The total the form computes for a product and a quantity: the product's price times the
      quantity, when the product is in the list and the quantity is positive; `None` when no
      total is computed. */
  function AutoTotal(products: seq<Product>, productId: string, quantity: Option<int>): (t: Option<real>)
    ensures FindProduct(products, productId).Some? && QuantityOrZero(quantity) > 0 ==>
      t == Some(LineTotal(FindProduct(products, productId).value.price, QuantityOrZero(quantity)))
    ensures FindProduct(products, productId).None? || QuantityOrZero(quantity) <= 0 ==> t == None
  {
    var p := FindProduct(products, productId);
    var q := QuantityOrZero(quantity);
    if p.Some? && q > 0 then Some(LineTotal(p.value.price, q)) else None
  }

  /** The message of the first guard of `handleSubmit` that fails, in the order the source
      runs them: the user, the chosen product, the quantity, the total. `None` when all pass. */
  function Rejection(user: Option<User>, fields: SaleFields): (msg: Option<string>)
    ensures msg.None? <==>
      user.Some? && fields.productId != ""
      && fields.quantity.Some? && fields.quantity.value > 0
      && fields.totalAmount.Some? && fields.totalAmount.value > 0.0
    ensures user.None? ==> msg == Some(NoUser)
    ensures user.Some? && fields.productId == "" ==> msg == Some(NoProductChosen)
    ensures user.Some? && fields.productId != "" && (fields.quantity.None? || fields.quantity.value <= 0) ==>
      msg == Some(BadQuantity)
    ensures msg == Some(BadTotal) <==>
      user.Some? && fields.productId != "" && fields.quantity.Some? && fields.quantity.value > 0
      && (fields.totalAmount.None? || fields.totalAmount.value <= 0.0)
  {
    if user.None? then Some(NoUser)
    else if fields.productId == "" then Some(NoProductChosen)
    else if fields.quantity.None? || fields.quantity.value <= 0 then Some(BadQuantity)
    else if fields.totalAmount.None? || fields.totalAmount.value <= 0.0 then Some(BadTotal)
    else None
  }

  /** A request the form sends satisfies every guard: a positive quantity and total, and the
      platform of a product that is in the list. */
  lemma SentRequestIsValid(user: Option<User>, products: seq<Product>, fields: SaleFields)
    requires Rejection(user, fields).None? && FindProduct(products, fields.productId).Some?
    ensures var p := FindProduct(products, fields.productId).value;
      var r := SaleRequest(fields.productId, fields.quantity.value, fields.totalAmount.value,
                           fields.saleDate, p.platform, user.value.id);
      && r.quantity > 0 && r.totalAmount > 0.0
      && exists i :: 0 <= i < |products| && products[i].id == r.productId && products[i].platform == r.platform
  {
    var i := FindIndex(products, fields.productId).value;
    assert products[i].id == fields.productId;
  }

  /** The form as it opens, or as it is reset, cannot be sent: no product is chosen. */
  lemma EmptyFormIsRejected(user: Option<User>, today: string)
    ensures Rejection(user, EmptyFields(today)).Some?
  {
  }

  class SaleForm {
    var formData: SaleFields
    var loading: bool
    var error: string

    constructor (today: string)
      ensures formData == EmptyFields(today) && !loading && error == ""
    {
      formData, loading, error := EmptyFields(today), false, "";
    }

    /** `handleInputChange`: the named field takes the new value and the error is cleared.
        A change of the product or of the quantity then overwrites the total with the computed
        one, when there is one; a change of the total or of the date never does. */
    method HandleInputChange(input: SaleInput, products: seq<Product>)
      modifies this`formData, this`error
      ensures error == ""
      ensures formData.productId == if input.ProductIdInput? then input.productId else old(formData.productId)
      ensures formData.quantity == if input.QuantityInput? then input.quantity else old(formData.quantity)
      ensures formData.saleDate == if input.SaleDateInput? then input.saleDate else old(formData.saleDate)
      ensures (input.ProductIdInput? || input.QuantityInput?) &&
              AutoTotal(products, formData.productId, formData.quantity).Some? ==>
        formData.totalAmount == AutoTotal(products, formData.productId, formData.quantity)
      ensures !((input.ProductIdInput? || input.QuantityInput?) &&
                AutoTotal(products, formData.productId, formData.quantity).Some?) ==>
        formData.totalAmount == if input.TotalAmountInput? then input.totalAmount else old(formData.totalAmount)
    {
      var previous := formData;
      match input {
        case ProductIdInput(v) => formData := formData.(productId := v);
        case QuantityInput(v) => formData := formData.(quantity := v);
        case TotalAmountInput(v) => formData := formData.(totalAmount := v);
        case SaleDateInput(v) => formData := formData.(saleDate := v);
      }
      error := "";
      if input.ProductIdInput? || input.QuantityInput? {
        var productId := if input.ProductIdInput? then input.productId else previous.productId;
        var quantity := if input.QuantityInput? then QuantityOrZero(input.quantity) else QuantityOrZero(previous.quantity);
        var selected := FindProduct(products, productId);
        assert productId == formData.productId && quantity == QuantityOrZero(formData.quantity);
        if selected.Some? && quantity > 0 {
          formData := formData.(totalAmount := Some(LineTotal(selected.value.price, quantity)));
        }
      }
    }

    /** `handleSubmit`, with the user, the product list, the backend's answer to `createSale`
        and today's date as parameters. `request` is the record sent to `createSale`, if the
        call is made; `saved` says whether `onSaleSaved` and `onClose` are called. */
    method Submit(user: Option<User>, products: seq<Product>, outcome: Backend, today: string)
      returns (request: Option<SaleRequest>, saved: bool)
      modifies this
      ensures Rejection(user, old(formData)).Some? ==>
        && error == Rejection(user, old(formData)).value
        && loading == old(loading) && formData == old(formData)
        && request.None? && !saved
      ensures Rejection(user, old(formData)).None? && FindProduct(products, old(formData.productId)).None? ==>
        && error == ProductNotFound && !loading && formData == old(formData)
        && request.None? && !saved
      ensures Rejection(user, old(formData)).None? && FindProduct(products, old(formData.productId)).Some? ==>
        && request == Some(SaleRequest(
             old(formData.productId), old(formData.quantity.value), old(formData.totalAmount.value),
             old(formData.saleDate), FindProduct(products, old(formData.productId)).value.platform,
             user.value.id))
        && !loading
        && (saved <==> outcome.Succeeded?)
        && (outcome.Succeeded? ==> error == "" && formData == EmptyFields(today))
        && (outcome.Failed? ==> error == CreateFailed && formData == old(formData))
        && (outcome.Threw? ==> error == CreateThrew && formData == old(formData))
    {
      request, saved := None, false;
      var rejection := Rejection(user, formData);
      if rejection.Some? {
        error := rejection.value;
        return;
      }
      loading := true;
      error := "";
      var selected := FindProduct(products, formData.productId);
      if selected.None? {
        error := ProductNotFound;
        loading := false;
        return;
      }
      request := Some(SaleRequest(formData.productId, formData.quantity.value, formData.totalAmount.value,
                                  formData.saleDate, selected.value.platform, user.value.id));
      match outcome {
        case Failed(_) => error := CreateFailed;
        case Threw(_) => error := CreateThrew;
        case Succeeded =>
          saved := true;
          formData := EmptyFields(today);
      }
      loading := false;
    }
  }
}
