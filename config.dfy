/**
 * The configuration element of the C++ wrapper API: a tag and a variant
 * payload kept side by side, the recursive map and array containers, and the
 * read-only `Conf` wrapper with its tag query and its two lookups.
 *
 * The tag and the payload are two independent components, as they are two
 * fields in C++: nothing forces them to agree, and one setter in
 * ConfigSetters makes them disagree.
 */
module Config {
  import opened Primitives

  /** `ConfElem::Type`, in declaration order. */
  datatype Tag = Empty | Map | Array | String | Integer | Double | Boolean

  /**
   * The variant `value` of a `ConfElem`. Containers hold their elements by
   * value: `ConfMap` is a `std::map<std::string, ConfElem>` (keys unique,
   * kept in key order) and `ConfArray` a `std::vector<ConfElem>`.
   */
  datatype Payload =
    | Monostate
    | MapValue(entries: map<string, Elem>)
    | ArrayValue(items: seq<Elem>)
    | Text(text: string)
    | LongLong(n: Int64)
    | Real(d: F64)
    | Flag(b: bool)

  /** A `ConfElem` value, as stored in a container or in a `Conf`. */
  datatype Elem = Elem(tag: Tag, payload: Payload)

  /** The tag that the comments on `ConfElem::Type` pair with each variant alternative. */
  function TagOf(p: Payload): Tag
  {
    match p
    case Monostate => Empty
    case MapValue(_) => Map
    case ArrayValue(_) => Array
    case Text(_) => String
    case LongLong(_) => Integer
    case Real(_) => Double
    case Flag(_) => Boolean
  }

  /** The tag describes the payload actually held. */
  predicate Consistent(e: Elem)
  {
    e.tag == TagOf(e.payload)
  }

  /** The plain configuration value of the base API (`zia::api::ConfValue`). */
  datatype ConfValue =
    | Object(fields: map<string, ConfValue>)
    | List(values: seq<ConfValue>)
    | Str(s: string)
    | Int(i: Int64)
    | Dbl(d: F64)
    | Bool(b: bool)

  /** `zia::api::Conf`: the top level of a base-API configuration is an object. */
  type BasicConf = map<string, ConfValue>

  /** `Conf`: a wrapper around one element. */
  datatype Conf = Conf(elem: Elem)

  /** The outcome of a lookup: the element found, or the `InvalidAccess` exception. */
  datatype Access = Found(elem: Elem) | InvalidAccess

  /**
   * `Conf c;` (default-initialisation): the variant is default-constructed
   * to `std::monostate`, while the enum is left uninitialised, so its tag is
   * whatever `indeterminate` is.
   */
  function DefaultConf(indeterminate: Tag): (c: Conf)
    ensures c.elem.payload == Monostate
    ensures c.elem.tag == indeterminate
  {
    Conf(Elem(indeterminate, Monostate))
  }

  /** `Conf::getType`: the stored tag, whatever the payload. */
  function GetType(c: Conf): (t: Tag)
    ensures t == c.elem.tag
  {
    c.elem.tag
  }

  /** `getType` returns the stored tag, also when it disagrees with the payload, and never fails. */
  lemma GetTypeIsStoredTag(t: Tag, p: Payload)
    ensures GetType(Conf(Elem(t, p))) == t
  {
  }

  /**
   * `Conf::operator[](int)`: `std::get<ConfArray>` on the payload, then
   * `elems.at(index)` with the index converted to `std::size_t`; any failure
   * becomes `InvalidAccess`. The tag is not consulted.
   */
  function AtIndex(c: Conf, index: Int32): (r: Access)
    ensures r.Found? <==> c.elem.payload.ArrayValue? && ToSizeT(index) < |c.elem.payload.items|
    ensures r.Found? ==> r.elem == c.elem.payload.items[ToSizeT(index)]
  {
    match c.elem.payload
    case ArrayValue(items) =>
      var position := ToSizeT(index);
      if position < |items| then Found(items[position]) else InvalidAccess
    case _ => InvalidAccess
  }

  /**
   * For any array a `std::vector` can hold, a lookup by position succeeds
   * exactly for the indices 0 .. size-1; a negative index wraps to a huge
   * `size_t` and fails, like any index past the end or any non-array payload.
   */
  lemma AtIndexSpec(c: Conf, index: Int32)
    requires c.elem.payload.ArrayValue? ==> |c.elem.payload.items| <= MaxVectorLength
    ensures AtIndex(c, index).Found? <==>
      c.elem.payload.ArrayValue? && 0 <= index as int < |c.elem.payload.items|
    ensures AtIndex(c, index).Found? ==> AtIndex(c, index).elem == c.elem.payload.items[index]
  {
  }

  /**
   * `Conf::operator[](const std::string &)`: `std::get<ConfMap>` on the
   * payload, then `elems.at(key)`; any failure becomes `InvalidAccess`.
   * The tag is not consulted.
   */
  function AtKey(c: Conf, key: string): (r: Access)
    ensures r.Found? <==> c.elem.payload.MapValue? && key in c.elem.payload.entries
    ensures r.Found? ==> r.elem == c.elem.payload.entries[key]
  {
    match c.elem.payload
    case MapValue(entries) => if key in entries then Found(entries[key]) else InvalidAccess
    case _ => InvalidAccess
  }

  /** Both lookups depend on the payload alone: replacing the tag changes neither. */
  lemma LookupsIgnoreTag(c: Conf, t: Tag, index: Int32, key: string)
    ensures AtIndex(Conf(Elem(t, c.elem.payload)), index) == AtIndex(c, index)
    ensures AtKey(Conf(Elem(t, c.elem.payload)), key) == AtKey(c, key)
  {
  }

  /**
   * `Conf::fromBasicConfig`: `return {};` value-initialises a `Conf` whose
   * default constructor is defaulted, so the tag is zero-initialised to
   * `Empty` and the payload is `std::monostate`. The argument is not read.
   */
  function FromBasicConfig(basic: BasicConf): (c: Conf)
    ensures GetType(c) == Empty && c.elem.payload == Monostate
    ensures Consistent(c.elem)
    ensures forall index: Int32 :: AtIndex(c, index) == InvalidAccess
    ensures forall key: string :: AtKey(c, key) == InvalidAccess
  {
    Conf(Elem(Empty, Monostate))
  }

  /** Whatever the base configuration, the wrapped configuration is the same. */
  lemma FromBasicConfigIgnoresInput(a: BasicConf, b: BasicConf)
    ensures FromBasicConfig(a) == FromBasicConfig(b)
  {
  }
}
