/**
 * The product and category serializers: the fields they expose, the fields
 * they refuse to take from input, the records a create or update produces,
 * and the write-time check that a product goes only into a category the
 * requesting user owns.
 */
module Serializers {
  import opened Wrappers
  import opened Domain

  // ---------------------------------------------------------------------------
  // Declared field sets
  // ---------------------------------------------------------------------------

  const ProductFields: seq<string> := [
    "id", "name", "price", "quantity", "min_threshold",
    "expiration_date", "category", "is_low_stock",
    "has_expiry", "created_at"
  ]

  /** `read_only_fields` plus the two annotation fields declared `read_only=True`. */
  const ProductReadOnlyFields: set<string> := {"id", "created_at", "is_low_stock", "has_expiry"}

  const CategoryFields: seq<string> := ["id", "name", "description", "created_at"]

  const CategoryReadOnlyFields: set<string> := {"id", "created_at"}

  function WritableFields(fields: seq<string>, readOnly: set<string>): set<string> {
    set f | f in fields && f !in readOnly
  }

  /** A client can write a product's name, price, quantity, threshold, expiration date and category, and nothing else. */
  lemma ProductWritableFields()
    ensures WritableFields(ProductFields, ProductReadOnlyFields)
         == {"name", "price", "quantity", "min_threshold", "expiration_date", "category"}
  {
    var w := WritableFields(ProductFields, ProductReadOnlyFields);
    assert forall f :: f in w <==> f in ProductFields && f !in ProductReadOnlyFields;
    assert ProductFields[1] == "name" && ProductFields[2] == "price" && ProductFields[3] == "quantity";
    assert ProductFields[4] == "min_threshold" && ProductFields[5] == "expiration_date";
    assert ProductFields[6] == "category";
  }

  /** A client can write a category's name and description, and nothing else; in particular never its owner. */
  lemma CategoryWritableFields()
    ensures WritableFields(CategoryFields, CategoryReadOnlyFields) == {"name", "description"}
  {
    var w := WritableFields(CategoryFields, CategoryReadOnlyFields);
    assert forall f :: f in w <==> f in CategoryFields && f !in CategoryReadOnlyFields;
    assert CategoryFields[1] == "name" && CategoryFields[2] == "description";
  }

  // ---------------------------------------------------------------------------
  // Input and output representations
  // ---------------------------------------------------------------------------

  /** A field value as it travels in a request or response body. */
  datatype Value = Int(i: int) | Str(s: string) | Bool(b: bool) | Null

  /**
   * The part of a submitted body the serializer reads: the declared fields
   * that are not read-only. Read-only and undeclared keys are dropped.
   */
  function AcceptedData(data: map<string, Value>, fields: seq<string>, readOnly: set<string>): (r: map<string, Value>)
    ensures r.Keys == data.Keys * WritableFields(fields, readOnly)
    ensures forall k :: k in r ==> r[k] == data[k]
  {
    map k | k in data && k in fields && k !in readOnly :: data[k]
  }

  /** Two bodies that agree on the writable fields are read identically, whatever their read-only keys hold. */
  lemma ReadOnlyFieldsIgnored(d1: map<string, Value>, d2: map<string, Value>, fields: seq<string>, readOnly: set<string>)
    requires forall k :: k in fields && k !in readOnly ==> (k in d1 <==> k in d2)
    requires forall k :: k in fields && k !in readOnly && k in d1 && k in d2 ==> d1[k] == d2[k]
    ensures AcceptedData(d1, fields, readOnly) == AcceptedData(d2, fields, readOnly)
  {
    var a1, a2 := AcceptedData(d1, fields, readOnly), AcceptedData(d2, fields, readOnly);
    assert a1.Keys == a2.Keys;
  }

  function DateValue(d: Option<Date>): Value {
    if d.Some? then Int(d.value) else Null
  }

  function TextValue(s: Option<string>): Value {
    if s.Some? then Str(s.value) else Null
  }

  /** `ProductSerializer(...).data` for one annotated product; the category is given by its key. */
  function ProductRepresentation(a: AnnotatedProduct): (r: map<string, Value>)
    ensures r.Keys == set f | f in ProductFields
    ensures r["is_low_stock"] == Bool(a.isLowStock) && r["has_expiry"] == Bool(a.hasExpiry)
    ensures r["category"] == Int(a.product.category.id)
  {
    var p := a.product;
    map[
      "id" := Int(p.id), "name" := Str(p.name), "price" := Int(p.price),
      "quantity" := Int(p.quantity), "min_threshold" := Int(p.minThreshold),
      "expiration_date" := DateValue(p.expirationDate), "category" := Int(p.category.id),
      "is_low_stock" := Bool(a.isLowStock), "has_expiry" := Bool(a.hasExpiry),
      "created_at" := Int(p.createdAt)
    ]
  }

  /** `CategorySerializer(...).data`: the owner is never part of the output. */
  function CategoryRepresentation(c: Category): (r: map<string, Value>)
    ensures r.Keys == set f | f in CategoryFields
    ensures "owner" !in r
  {
    map["id" := Int(c.id), "name" := Str(c.name), "description" := TextValue(c.description), "created_at" := Int(c.createdAt)]
  }

  // ---------------------------------------------------------------------------
  // validate_category and the product write path
  // ---------------------------------------------------------------------------

  /** The serializer context: the requesting user when a request is present. */
  datatype Context = Context(request: Option<UserId>)

  const AccessDenied := "Access Denied: You cannot assign products to a category you do not own."

  const InvalidPk := "Invalid pk - object does not exist."

  /**
   * `validate_category`: without a request the value passes unchecked;
   * with one it passes, unchanged, exactly when the requesting user owns
   * the category, and is rejected otherwise.
   */
  function ValidateCategory(ctx: Context, value: Category): (r: Result<Category, Error>)
    ensures ctx.request.None? ==> r == Ok(value)
    ensures ctx.request.Some? ==> (r.Ok? <==> value.owner == ctx.request.value)
    ensures r.Ok? ==> r.value == value
    ensures r.Err? ==> r.error == ValidationError(AccessDenied)
  {
    match ctx.request
    case None => Ok(value)
    case Some(user) =>
      if value.owner != user then Err(ValidationError(AccessDenied)) else Ok(value)
  }

  /**
   * The `category` field resolves the submitted key among ALL categories,
   * not only the caller's; ownership is left to `ValidateCategory`.
   */
  function ResolveCategory(categories: seq<Category>, pk: int): (r: Result<Category, Error>)
    ensures r.Ok? ==> r.value in categories && r.value.id == pk
    ensures r.Err? <==> forall c :: c in categories ==> c.id != pk
    ensures r.Err? ==> r.error == ValidationError(InvalidPk)
  {
    match FindCategory(categories, pk)
    case Ok(c) => Ok(c)
    case Err(_) => Err(ValidationError(InvalidPk))
  }

  /** The writable fields of a product as submitted; `category` is the key sent by the client. */
  datatype ProductInput = ProductInput(
    name: string,
    price: int,
    quantity: int,
    minThreshold: int,
    expirationDate: Option<Date>,
    category: int)

  /** The category key resolves, and the check of `validate_category` accepts it. */
  predicate CategoryAccepted(ctx: Context, categories: seq<Category>, pk: int) {
    var c := ResolveCategory(categories, pk);
    c.Ok? && ValidateCategory(ctx, c.value).Ok?
  }

  /**
   * `is_valid()` then `save()` for a new product. The key and creation
   * time are the database's (`id`, `now`), never taken from the input.
   */
  function CreateProduct(ctx: Context, categories: seq<Category>, input: ProductInput, id: int, now: Timestamp)
    : (r: Result<Product, Error>)
    ensures r.Ok? <==> CategoryAccepted(ctx, categories, input.category)
    ensures r.Ok? ==> r.value.category in categories && r.value.category.id == input.category
    ensures r.Ok? && ctx.request.Some? ==> r.value.category.owner == ctx.request.value
    ensures r.Ok? ==> r.value == Product(id, input.name, input.price, input.quantity, input.minThreshold,
                                         input.expirationDate, r.value.category, now)
    ensures r.Err? ==> r.error.ValidationError?
  {
    match ResolveCategory(categories, input.category)
    case Err(e) => Err(e)
    case Ok(c) =>
      match ValidateCategory(ctx, c)
      case Err(e) => Err(e)
      case Ok(c') =>
        Ok(Product(id, input.name, input.price, input.quantity, input.minThreshold, input.expirationDate, c', now))
  }

  /** A partial update (PATCH); a full update (PUT) supplies every field. */
  datatype ProductPatch = ProductPatch(
    name: Option<string>,
    price: Option<int>,
    quantity: Option<int>,
    minThreshold: Option<int>,
    expirationDate: Option<Option<Date>>,
    category: Option<int>)

  /**
   * `is_valid()` then `save()` on an existing product. `validate_category`
   * runs only when a category is submitted; the key and creation time
   * never change.
   */
  function UpdateProduct(ctx: Context, categories: seq<Category>, current: Product, patch: ProductPatch)
    : (r: Result<Product, Error>)
    ensures patch.category.None? ==> r.Ok? && r.value.category == current.category
    ensures patch.category.Some? ==> (r.Ok? <==> CategoryAccepted(ctx, categories, patch.category.value))
    ensures patch.category.Some? && r.Ok? ==>
      r.value.category in categories && r.value.category.id == patch.category.value &&
      (ctx.request.Some? ==> r.value.category.owner == ctx.request.value)
    ensures r.Ok? ==> r.value == Product(current.id,
                                         patch.name.GetOr(current.name),
                                         patch.price.GetOr(current.price),
                                         patch.quantity.GetOr(current.quantity),
                                         patch.minThreshold.GetOr(current.minThreshold),
                                         patch.expirationDate.GetOr(current.expirationDate),
                                         r.value.category,
                                         current.createdAt)
  {
    var category :=
      match patch.category
      case None => Ok(current.category)
      case Some(pk) =>
        match ResolveCategory(categories, pk)
        case Err(e) => Err(e)
        case Ok(c) => ValidateCategory(ctx, c);
    match category
    case Err(e) => Err(e)
    case Ok(c) =>
      Ok(Product(current.id,
                 patch.name.GetOr(current.name),
                 patch.price.GetOr(current.price),
                 patch.quantity.GetOr(current.quantity),
                 patch.minThreshold.GetOr(current.minThreshold),
                 patch.expirationDate.GetOr(current.expirationDate),
                 c,
                 current.createdAt))
  }

  // ---------------------------------------------------------------------------
  // Category writes
  // ---------------------------------------------------------------------------

  /** The writable fields of a category as submitted. */
  datatype CategoryInput = CategoryInput(name: string, description: Option<string>)

  /** `serializer.save(owner=...)`: the owner is the one supplied by the view, never the input. */
  function CreateCategory(owner: UserId, input: CategoryInput, id: int, now: Timestamp): (c: Category)
    ensures c.owner == owner && c.id == id && c.createdAt == now
    ensures c.name == input.name && c.description == input.description
  {
    Category(id, input.name, input.description, owner, now)
  }

  datatype CategoryPatch = CategoryPatch(name: Option<string>, description: Option<Option<string>>)

  /** An update rewrites only the name and description; key, owner and creation time stay. */
  function UpdateCategory(current: Category, patch: CategoryPatch): (c: Category)
    ensures c.id == current.id && c.owner == current.owner && c.createdAt == current.createdAt
    ensures c.name == patch.name.GetOr(current.name)
    ensures c.description == patch.description.GetOr(current.description)
  {
    current.(name := patch.name.GetOr(current.name),
             description := patch.description.GetOr(current.description))
  }
}
