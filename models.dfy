/** The stored records of src/models.py. A record is built from named fields plus any
    extra keyword fields, which are stored alongside them (MongoModel turns every
    keyword argument into an attribute). */
module Models {
  import opened Wrappers

  /** A decimal amount kept as an integer count of 1/10^4 units. The feed sends group
      prices in exactly this form; the floating-point values the bot derives from them
      are not modelled. */
  datatype Price = Price(scaled: int)

  /** The values a document field can hold. */
  datatype Value = VNone | VBool(b: bool) | VInt(i: int) | VStr(s: string) | VPrice(p: Price)

  /** Python truthiness of a field value. */
  predicate Truthy(v: Value) {
    match v
    case VNone => false
    case VBool(b) => b
    case VInt(i) => i != 0
    case VStr(s) => s != ""
    case VPrice(p) => p.scaled != 0
  }

  function OptionalText(o: Option<string>): Value {
    match o
    case None => VNone
    case Some(s) => VStr(s)
  }

  /** Timestamps are whole seconds since the Unix epoch, in UTC. */
  const SecondsPerDay: int := 86400

  /** The UTC calendar day of a timestamp, counted from the epoch (floor division). */
  function DayOf(t: int): int {
    t / SecondsPerDay
  }

  /** A later calendar day means a later timestamp. */
  lemma DayOfMonotone(t1: int, t2: int)
    requires DayOf(t1) < DayOf(t2)
    ensures t1 < t2
  {
  }

  // ---------------------------------------------------------------------------
  // User

  const UserFields: set<string> :=
    {"user_id", "platform", "first_name", "last_name", "username", "language", "is_active",
     "created_at"}

  /** `created_at` is the timestamp MongoModel gives every object it builds (src/lib/model.py:10). */
  datatype User = User(
    user_id: string,
    platform: string,
    first_name: string,
    last_name: Option<string>,
    username: Option<string>,
    language: Option<string>,
    is_active: bool,
    created_at: int,
    extras: map<string, Value>)

  /** The attributes of a user object, i.e. the fields of its stored document. */
  function UserAttrs(u: User): map<string, Value> {
    u.extras + map[
      "user_id" := VStr(u.user_id),
      "platform" := VStr(u.platform),
      "first_name" := VStr(u.first_name),
      "last_name" := OptionalText(u.last_name),
      "username" := OptionalText(u.username),
      "language" := OptionalText(u.language),
      "is_active" := VBool(u.is_active),
      "created_at" := VInt(u.created_at)]
  }

  /** `User(...)`: three required fields, four defaulted ones, and extra keyword fields.
      Python cannot pass an extra keyword that repeats a named parameter. `created_at` is
      the `created_at` keyword argument when one is given and the current time otherwise. */
  function NewUser(
    user_id: string,
    platform: string,
    first_name: string,
    created_at: int,
    last_name: Option<string> := None,
    username: Option<string> := None,
    language: Option<string> := Some("en"),
    is_active: bool := true,
    extras: map<string, Value> := map[]): (u: User)
    requires extras.Keys !! UserFields
    ensures UserAttrs(u).Keys == UserFields + extras.Keys
    ensures forall k :: k in extras ==> UserAttrs(u)[k] == extras[k]
    ensures UserAttrs(u)["user_id"] == VStr(user_id) && UserAttrs(u)["platform"] == VStr(platform)
    ensures UserAttrs(u)["first_name"] == VStr(first_name)
    ensures UserAttrs(u)["last_name"] == OptionalText(last_name)
    ensures UserAttrs(u)["username"] == OptionalText(username)
    ensures UserAttrs(u)["language"] == OptionalText(language)
    ensures UserAttrs(u)["is_active"] == VBool(is_active)
    ensures UserAttrs(u)["created_at"] == VInt(created_at)
  {
    User(user_id, platform, first_name, last_name, username, language, is_active, created_at, extras)
  }

  /** With only the required fields given, a user has no last name or username, speaks
      "en", is active and carries its creation time. */
  lemma NewUserDefaults(user_id: string, platform: string, first_name: string, created_at: int)
    ensures var u := NewUser(user_id, platform, first_name, created_at);
      && UserAttrs(u)["last_name"] == VNone
      && UserAttrs(u)["username"] == VNone
      && UserAttrs(u)["language"] == VStr("en")
      && UserAttrs(u)["is_active"] == VBool(true)
      && UserAttrs(u)["created_at"] == VInt(created_at)
      && UserAttrs(u).Keys == UserFields
  {
  }

  // ---------------------------------------------------------------------------
  // PriceRecord

  const PriceRecordFields: set<string> :=
    {"product_name", "average_price", "max_price", "min_price", "quantity", "created_at"}

  /** `created_at` is the timestamp every stored document carries (set by MongoModel from
      its keyword arguments, or from the clock when a record is first built). */
  datatype PriceRecord = PriceRecord(
    product_name: string,
    average_price: Price,
    max_price: Price,
    min_price: Price,
    quantity: int,
    created_at: int,
    extras: map<string, Value>)

  function PriceRecordAttrs(r: PriceRecord): map<string, Value> {
    r.extras + map[
      "product_name" := VStr(r.product_name),
      "average_price" := VPrice(r.average_price),
      "max_price" := VPrice(r.max_price),
      "min_price" := VPrice(r.min_price),
      "quantity" := VInt(r.quantity),
      "created_at" := VInt(r.created_at)]
  }

  /** `PriceRecord(...)`: five required fields, with extras passed through. */
  function NewPriceRecord(
    product_name: string,
    average_price: Price,
    max_price: Price,
    min_price: Price,
    quantity: int,
    created_at: int,
    extras: map<string, Value> := map[]): (r: PriceRecord)
    requires extras.Keys !! PriceRecordFields
    ensures PriceRecordAttrs(r).Keys == PriceRecordFields + extras.Keys
    ensures forall k :: k in extras ==> PriceRecordAttrs(r)[k] == extras[k]
    ensures PriceRecordAttrs(r)["product_name"] == VStr(product_name)
    ensures PriceRecordAttrs(r)["average_price"] == VPrice(average_price)
    ensures PriceRecordAttrs(r)["max_price"] == VPrice(max_price)
    ensures PriceRecordAttrs(r)["min_price"] == VPrice(min_price)
    ensures PriceRecordAttrs(r)["quantity"] == VInt(quantity)
  {
    PriceRecord(product_name, average_price, max_price, min_price, quantity, created_at, extras)
  }
}
