/**
 * The entities of the order domain as VALUES: what a request body carries and
 * what the store keeps under an id. Only the identifier and the scalar fields
 * are represented; associations live on the object graph (module Domain).
 *
 * Every field is nullable (`Option`), as in the Java entities. BigDecimal
 * prices and Instant dates are only ever copied, so they are opaque integers.
 */
module Entities {
  import opened Wrappers

  /** Java `Long` identifiers (the width is not modelled). */
  type Id = int

  datatype OrderStatus = Completed | Paid | Pending | Cancelled | Refunded

  datatype PaymentMethod = CreditCard | Ideal | Paypal

  datatype Entity =
    | ProductCategory(id: Option<Id>, name: Option<string>, description: Option<string>)
    | CustomerDetails(id: Option<Id>, phone: Option<string>, addressLine1: Option<string>,
                      addressLine2: Option<string>, city: Option<string>, country: Option<string>)
    | ShoppingCart(id: Option<Id>, placedDate: Option<int>, status: Option<OrderStatus>,
                   totalPrice: Option<int>, paymentMethod: Option<PaymentMethod>,
                   paymentReference: Option<string>)
    | ProductOrder(id: Option<Id>, quantity: Option<int>, totalPrice: Option<int>)

  datatype Kind = CategoryKind | CustomerKind | CartKind | OrderKind

  function KindOf(e: Entity): Kind {
    match e
    case ProductCategory(_, _, _) => CategoryKind
    case CustomerDetails(_, _, _, _, _, _) => CustomerKind
    case ShoppingCart(_, _, _, _, _, _) => CartKind
    case ProductOrder(_, _, _) => OrderKind
  }

  /** `e` with its identifier set to `id`, every other field kept (the entity's setId). */
  function WithId(e: Entity, id: Option<Id>): (r: Entity)
    ensures r.id == id && KindOf(r) == KindOf(e)
    ensures Row(r) == Row(e)
    ensures r.id == e.id ==> r == e
  {
    match e
    case ProductCategory(_, name, description) => ProductCategory(id, name, description)
    case CustomerDetails(_, phone, a1, a2, city, country) => CustomerDetails(id, phone, a1, a2, city, country)
    case ShoppingCart(_, placedDate, status, totalPrice, paymentMethod, paymentReference) =>
      ShoppingCart(id, placedDate, status, totalPrice, paymentMethod, paymentReference)
    case ProductOrder(_, quantity, totalPrice) => ProductOrder(id, quantity, totalPrice)
  }

  /** Giving an entity a new id and then its old one back restores it. */
  lemma WithIdRestores(e: Entity, id: Option<Id>)
    ensures WithId(WithId(e, id), e.id) == e
  {
    var r := WithId(WithId(e, id), e.id);
    RowDetermines(r, e);
  }

  // ---------------------------------------------------------------------
  // Field descriptor table: one generic view of every entity's scalar fields
  // ---------------------------------------------------------------------

  /** A scalar field value of any entity. */
  datatype Value = Text(text: string) | Number(number: int) | Status(status: OrderStatus) | Payment(payment: PaymentMethod)

  /** A nullable field. */
  type Field = Option<Value>

  datatype FieldType = TextField | NumberField | StatusField | PaymentField

  datatype FieldSpec = FieldSpec(name: string, ty: FieldType, required: bool)

  /**
   * The scalar fields of each kind of entity, in declaration order, with their
   * required-ness: field names are distinct, and the only nullable fields are
   * a category's description, a customer's addressLine2 and a cart's paymentReference.
   */
  function Schema(k: Kind): (r: seq<FieldSpec>)
    ensures forall i, j :: 0 <= i < j < |r| ==> r[i].name != r[j].name
    ensures forall i :: 0 <= i < |r| ==>
      (!r[i].required <==> r[i].name in {"description", "addressLine2", "paymentReference"})
  {
    match k
    case CategoryKind =>
      [FieldSpec("name", TextField, true), FieldSpec("description", TextField, false)]
    case CustomerKind =>
      [FieldSpec("phone", TextField, true), FieldSpec("addressLine1", TextField, true),
       FieldSpec("addressLine2", TextField, false), FieldSpec("city", TextField, true),
       FieldSpec("country", TextField, true)]
    case CartKind =>
      [FieldSpec("placedDate", NumberField, true), FieldSpec("status", StatusField, true),
       FieldSpec("totalPrice", NumberField, true), FieldSpec("paymentMethod", PaymentField, true),
       FieldSpec("paymentReference", TextField, false)]
    case OrderKind =>
      [FieldSpec("quantity", NumberField, true), FieldSpec("totalPrice", NumberField, true)]
  }

  predicate Fits(ty: FieldType, f: Field) {
    match f
    case None => true
    case Some(v) =>
      match ty
      case TextField => v.Text?
      case NumberField => v.Number?
      case StatusField => v.Status?
      case PaymentField => v.Payment?
  }

  /** A row of fields that the descriptor table of `k` can read back into an entity. */
  predicate WellTyped(k: Kind, row: seq<Field>) {
    |row| == |Schema(k)| && forall i :: 0 <= i < |row| ==> Fits(Schema(k)[i].ty, row[i])
  }

  function OfText(f: Option<string>): Field { if f.Some? then Some(Text(f.value)) else None }
  function OfNumber(f: Option<int>): Field { if f.Some? then Some(Number(f.value)) else None }
  function OfStatus(f: Option<OrderStatus>): Field { if f.Some? then Some(Status(f.value)) else None }
  function OfPayment(f: Option<PaymentMethod>): Field { if f.Some? then Some(Payment(f.value)) else None }

  function AsText(f: Field): Option<string> { if f.Some? && f.value.Text? then Some(f.value.text) else None }
  function AsNumber(f: Field): Option<int> { if f.Some? && f.value.Number? then Some(f.value.number) else None }
  function AsStatus(f: Field): Option<OrderStatus> { if f.Some? && f.value.Status? then Some(f.value.status) else None }
  function AsPayment(f: Field): Option<PaymentMethod> { if f.Some? && f.value.Payment? then Some(f.value.payment) else None }

  /** The scalar fields of `e`, in the order of its schema. */
  function Row(e: Entity): (r: seq<Field>)
    ensures WellTyped(KindOf(e), r)
  {
    match e
    case ProductCategory(_, name, description) => [OfText(name), OfText(description)]
    case CustomerDetails(_, phone, a1, a2, city, country) =>
      [OfText(phone), OfText(a1), OfText(a2), OfText(city), OfText(country)]
    case ShoppingCart(_, placedDate, status, totalPrice, paymentMethod, paymentReference) =>
      [OfNumber(placedDate), OfStatus(status), OfNumber(totalPrice), OfPayment(paymentMethod), OfText(paymentReference)]
    case ProductOrder(_, quantity, totalPrice) => [OfNumber(quantity), OfNumber(totalPrice)]
  }

  /** The entity of the same kind and id as `shape` whose fields are `row`. */
  function FromRow(shape: Entity, row: seq<Field>): (r: Entity)
    requires WellTyped(KindOf(shape), row)
    ensures KindOf(r) == KindOf(shape) && r.id == shape.id
    ensures Row(r) == row
  {
    match shape
    case ProductCategory(id, _, _) => ProductCategory(id, AsText(row[0]), AsText(row[1]))
    case CustomerDetails(id, _, _, _, _, _) =>
      CustomerDetails(id, AsText(row[0]), AsText(row[1]), AsText(row[2]), AsText(row[3]), AsText(row[4]))
    case ShoppingCart(id, _, _, _, _, _) =>
      ShoppingCart(id, AsNumber(row[0]), AsStatus(row[1]), AsNumber(row[2]), AsPayment(row[3]), AsText(row[4]))
    case ProductOrder(id, _, _) => ProductOrder(id, AsNumber(row[0]), AsNumber(row[1]))
  }

  /** An entity is determined by its kind, its id and its row. */
  lemma RowDetermines(a: Entity, b: Entity)
    requires KindOf(a) == KindOf(b) && a.id == b.id && Row(a) == Row(b)
    ensures a == b
  {
  }

  // ---------------------------------------------------------------------
  // Required-field validation
  // ---------------------------------------------------------------------

  /** The names of the required fields of `schema` that are null in `row`, in schema order. */
  function MissingNames(schema: seq<FieldSpec>, row: seq<Field>): (r: seq<string>)
    requires |schema| == |row|
    ensures forall i :: 0 <= i < |row| && schema[i].required && row[i].None? ==> schema[i].name in r
    ensures forall n :: n in r ==> exists i :: 0 <= i < |row| && schema[i].name == n && schema[i].required && row[i].None?
  {
    if row == [] then []
    else
      var rest := MissingNames(schema[1..], row[1..]);
      if schema[0].required && row[0].None? then [schema[0].name] + rest else rest
  }

  /** Bean validation of an entity: the required fields it leaves null. */
  function Missing(e: Entity): (r: seq<string>)
    ensures r == [] <==> forall i :: 0 <= i < |Row(e)| && Schema(KindOf(e))[i].required ==> Row(e)[i].Some?
  {
    var r := MissingNames(Schema(KindOf(e)), Row(e));
    assert r != [] ==> r[0] in r;
    r
  }

  /** The required fields of each entity, stated field by field. */
  lemma MissingFields(e: Entity)
    ensures e.ProductCategory? ==> (Missing(e) == [] <==> e.name.Some?)
    ensures e.ProductCategory? && e.name.None? ==> "name" in Missing(e)
    ensures e.CustomerDetails? ==>
      (Missing(e) == [] <==> e.phone.Some? && e.addressLine1.Some? && e.city.Some? && e.country.Some?)
    ensures e.ShoppingCart? ==>
      (Missing(e) == [] <==> e.placedDate.Some? && e.status.Some? && e.totalPrice.Some? && e.paymentMethod.Some?)
    ensures e.ShoppingCart? && e.placedDate.None? ==> "placedDate" in Missing(e)
    ensures e.ShoppingCart? && e.status.None? ==> "status" in Missing(e)
    ensures e.ShoppingCart? && e.totalPrice.None? ==> "totalPrice" in Missing(e)
    ensures e.ShoppingCart? && e.paymentMethod.None? ==> "paymentMethod" in Missing(e)
    ensures e.ProductOrder? ==> (Missing(e) == [] <==> e.quantity.Some? && e.totalPrice.Some?)
    ensures e.ProductOrder? && e.quantity.None? ==> "quantity" in Missing(e)
    ensures e.ProductOrder? && e.totalPrice.None? ==> "totalPrice" in Missing(e)
  {
    var row, schema := Row(e), Schema(KindOf(e));
    match e
    case ProductCategory(_, _, _) =>
      assert schema[0].name == "name" && schema[0].required;
    case CustomerDetails(_, _, _, _, _, _) =>
      assert schema[0].required && schema[1].required && schema[3].required && schema[4].required;
    case ShoppingCart(_, _, _, _, _, _) =>
      assert schema[0].name == "placedDate" && schema[0].required;
      assert schema[1].name == "status" && schema[1].required;
      assert schema[2].name == "totalPrice" && schema[2].required;
      assert schema[3].name == "paymentMethod" && schema[3].required;
    case ProductOrder(_, _, _) =>
      assert schema[0].name == "quantity" && schema[0].required;
      assert schema[1].name == "totalPrice" && schema[1].required;
  }
}
