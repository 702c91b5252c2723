/**
 * The frontend's filter record (`PropertyFilters` in `types/property.ts`) and
 * the JavaScript truthiness its code tests it with.
 *
 * A `PropertyFilters` object is a map from its keys to values. A key can be
 * absent or present with the value `undefined` (a spread `{...a, [k]:
 * undefined}` keeps the key); reading either gives `undefined`.
 */
module FrontendTypes {
  import opened Wrappers
  import opened Text

  /** `PropertySortBy`. */
  datatype SortBy = Price | DateCreated | DateUpdated | Area | Bedrooms
  {
    /** The enum's string value. */
    function Value(): string {
      match this
      case Price => "price"
      case DateCreated => "createdAt"
      case DateUpdated => "updatedAt"
      case Area => "area"
      case Bedrooms => "bedrooms"
    }
  }

  /** `'asc' | 'desc'`. */
  datatype SortOrder = Asc | Desc
  {
    function Text(): string {
      match this
      case Asc => "asc"
      case Desc => "desc"
    }
  }

  /** The keys of `PropertyFilters`. */
  datatype FilterKey =
    | Search | PriceMin | PriceMax | YearBuiltMin | YearBuiltMax
    | PropertyTypes | Status | BedroomsKey | BathroomsKey | Location
    | SortByKey | SortOrderKey

  /** A JavaScript value stored under a key; `NaN` is `NotANumber`.
      Fractional numbers are not modelled. */
  datatype Value =
    | Undefined
    | Str(s: string)
    | Number(n: int)
    | NotANumber
    | Sort(kind: SortBy)
    | Order(order: SortOrder)
    | List(items: seq<string>)

  type Filters = map<FilterKey, Value>

  /** Reading a key: absent keys read as `undefined`. */
  function Get(f: Filters, k: FilterKey): Value {
    if k in f then f[k] else Undefined
  }

  /** JavaScript truthiness: `undefined`, `''`, `0` and `NaN` are falsy;
      enum strings, which are never empty, and arrays are truthy. */
  predicate Truthy(v: Value) {
    match v
    case Undefined => false
    case Str(s) => s != []
    case Number(n) => n != 0
    case NotANumber => false
    case Sort(_) => true
    case Order(_) => true
    case List(_) => true
  }

  /** The number truthiness of `|| d` keeps: a non-zero number, or `d`. */
  function NumberOr(v: Value, d: int): int {
    if v.Number? && v.n != 0 then v.n else d
  }

  /** What `parseInt(value, 10)` stores: a number or `NaN`. */
  function ParsedNumber(s: string): Value {
    var n := ParseIntJs(s);
    if n.Some? then Number(n.value) else NotANumber
  }

  /** `String(value)`: the text of a value, as the address and the inputs
      show it. */
  function Written(v: Value): string {
    match v
    case Undefined => "undefined"
    case Str(s) => s
    case Number(n) => IntToString(n)
    case NotANumber => "NaN"
    case Sort(kind) => kind.Value()
    case Order(order) => order.Text()
    case List(items) => Join(items, ',')
  }

  /** The components' `updateFilter`: `{ ...filters, [key]: value }`. */
  function Updated(f: Filters, k: FilterKey, v: Value): (r: Filters)
    ensures Get(r, k) == v
    ensures forall j :: j != k ==> Get(r, j) == Get(f, j)
  {
    f[k := v]
  }

  /** The number of truthy values in a list, `list.filter(Boolean).length`. */
  function CountTruthy(vs: seq<Value>): (n: nat)
    ensures n <= |vs|
  {
    if vs == [] then 0 else (if Truthy(vs[0]) then 1 else 0) + CountTruthy(vs[1..])
  }

  /** The count is zero exactly when every value is falsy. */
  lemma {:induction false} CountTruthyZero(vs: seq<Value>)
    ensures CountTruthy(vs) == 0 <==> forall i :: 0 <= i < |vs| ==> !Truthy(vs[i])
  {
    if vs != [] {
      CountTruthyZero(vs[1..]);
      assert forall i :: 1 <= i < |vs| ==> vs[i] == vs[1..][i - 1];
    }
  }
}
