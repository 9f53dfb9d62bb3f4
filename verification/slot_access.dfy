/** What the JavaScript built-ins used on an operation's `inputs`/`outputs` do with each
    representation: an array of `[name, type]` pairs, or a `Map` from name to type. */
module SlotAccess {
  import opened Wrappers
  import opened OrderedMaps
  import opened Model

  function Digit(d: nat): (c: char)
    requires d < 10
    ensures '0' <= c <= '9'
  {
    "0123456789"[d]
  }

  /** The canonical decimal spelling of `n`, as JavaScript turns an array index into a key. */
  function NatToString(n: nat): (s: string)
    ensures |s| > 0 && '0' <= s[0] <= '9'
  {
    if n < 10 then [Digit(n)] else NatToString(n / 10) + [Digit(n % 10)]
  }

  /** `Object.hasOwn(slots, key)`. An array owns the keys of its indices and `"length"`;
      a `Map` keeps its entries internally and owns no property named by a key. */
  function HasOwn(slots: Slots, key: string): (r: bool)
    ensures slots.MapSlots? ==> !r
    ensures r && key != "length" ==> |key| > 0 && '0' <= key[0] <= '9'
  {
    match slots
    case ArraySlots(e) => key == "length" || exists i | 0 <= i < |e| :: key == NatToString(i)
    case MapSlots(_) => false
  }

  /** `slots.findIndex(entry => entry[0] === name)`. A `Map` has no `findIndex`: calling it throws. */
  function FindIndex(slots: Slots, name: string): (r: Result<int, Error>)
    ensures slots.ArraySlots? <==> r.Success?
    ensures r.Success? ==> r.value == IndexOf(Names(slots), name)
  {
    match slots
    case ArraySlots(e) => Success(IndexOf(SlotNames(e), name))
    case MapSlots(_) => Failure(TypeError)
  }

  /** `slots[n]`: the pair at index `n`, or `undefined` (always `undefined` for a `Map`). */
  function At(slots: Slots, n: int): (r: Option<Slot>)
    ensures r.Some? <==> slots.ArraySlots? && 0 <= n < |slots.entries|
    ensures r.Some? ==> r.value == slots.entries[n]
  {
    match slots
    case ArraySlots(e) => if 0 <= n < |e| then Some(e[n]) else None
    case MapSlots(_) => None
  }
}
