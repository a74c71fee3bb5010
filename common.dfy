/** Values shared by the three admin-side components: optional values and
    faults, .NET DateTime as ticks, .NET string tests, stores and the
    select-list items the admin views show. */
module Common {

  datatype Option<+T> = None | Some(value: T)

  datatype Result<+T, +E> = Ok(value: T) | Err(error: E)

  /** The .NET exceptions the modelled code can let escape. */
  datatype Fault =
    | NullReference        // a member access on a null entity
    | ArgumentOutOfRange   // DateTime arithmetic past DateTime.MaxValue

  /** A .NET DateTime as its tick count (100 ns units since 0001-01-01);
      DateTime.MaxValue is 9999-12-31 23:59:59.9999999. */
  const MaxTicks: int := 3_155_378_975_999_999_999
  const TicksPerDay: int := 864_000_000_000

  type DateTime = t: int | 0 <= t <= MaxTicks

  /** DateTime.AddDays(1): throws when the result would pass DateTime.MaxValue. */
  function AddOneDay(t: DateTime): (r: Result<DateTime, Fault>)
    ensures r.Ok? <==> t + TicksPerDay <= MaxTicks
    ensures r.Ok? ==> r.value - t == TicksPerDay
    ensures r.Err? ==> r.error == ArgumentOutOfRange
  {
    if t <= MaxTicks - TicksPerDay then Ok(t + TicksPerDay) else Err(ArgumentOutOfRange)
  }

  /** The conversion applied to a nullable DateTime: null stays null. */
  function MapTime(t: Option<DateTime>, convert: DateTime -> DateTime): Option<DateTime>
  {
    match t
    case None => None
    case Some(v) => Some(convert(v))
  }

  /** string.IsNullOrEmpty, for a string that may be null. */
  predicate IsNullOrEmpty(s: Option<string>)
  {
    s.None? || s.value == ""
  }

  /** char.IsWhiteSpace: the Unicode space, line and paragraph separators,
      U+0009 to U+000D, U+0085 and U+00A0. */
  predicate IsWhiteSpace(c: char)
  {
    var n := c as int;
    (0x09 <= n <= 0x0D) || n == 0x20 || n == 0x85 || n == 0xA0 || n == 0x1680
    || (0x2000 <= n <= 0x200A) || n == 0x2028 || n == 0x2029 || n == 0x202F
    || n == 0x205F || n == 0x3000
  }

  /** string.IsNullOrWhiteSpace, with null written as "". */
  predicate IsNullOrWhiteSpace(s: string)
  {
    forall i :: 0 <= i < |s| ==> IsWhiteSpace(s[i])
  }

  /** A store (tenant) as the store service returns it. */
  datatype Store = Store(id: string, shortcut: string)

  /** An entry of a drop-down list in an admin view. */
  datatype SelectListItem = SelectListItem(text: string, value: string)

  /** The select-list entry for one store: its shortcut shown, its id as value. */
  function StoreItem(s: Store): SelectListItem
  {
    SelectListItem(s.shortcut, s.id)
  }

  /** The select-list entries for a list of stores, one per store, in order. */
  function StoreItems(stores: seq<Store>): (items: seq<SelectListItem>)
    ensures |items| == |stores|
    ensures forall i :: 0 <= i < |stores| ==> items[i] == StoreItem(stores[i])
  {
    if stores == [] then [] else [StoreItem(stores[0])] + StoreItems(stores[1..])
  }

  /** A repository's get-by-id: None stands for the null it returns for an unknown id. */
  function Lookup<K, V>(m: map<K, V>, k: K): (r: Option<V>)
    ensures r.Some? <==> k in m
    ensures r.Some? ==> r.value == m[k]
  {
    if k in m then Some(m[k]) else None
  }
}
