/**
 * The `ConfElem::set<T>` specialisations: each overwrites the element's tag
 * and its payload in place and returns the same element for chaining. The
 * `&` and `&&` overloads of each specialisation do the same assignments and
 * differ only in the reference kind they return, so one method stands for both.
 *
 * `set<ConfMap>` and `set<ConfArray>` move the container into a freshly
 * allocated cell, so no other element shares it afterwards: holding the
 * container by value in the payload is exact for what these setters do.
 */
module ConfigSetters {
  import opened Primitives
  import opened Config

  /** A `ConfElem` object, updated in place by its setters. */
  class ConfElem {
    /** The enum member called `type` in C++. */
    var tag: Tag
    /** The variant member `value`. */
    var value: Payload

    /**
     * `ConfElem e;`: the variant starts as `std::monostate`, the enum is
     * left uninitialised and holds whatever `indeterminate` is.
     */
    constructor (indeterminate: Tag)
      ensures tag == indeterminate && value == Monostate
    {
      tag := indeterminate;
      value := Monostate;
    }

    /** The element as a value, as it would be copied into a container. */
    function Snapshot(): Elem
      reads this
    {
      Elem(tag, value)
    }

    /** `set<ConfMap>`: the element now holds the given map, tagged `Map`. */
    method SetMap(val: map<string, Elem>) returns (self: ConfElem)
      modifies this
      ensures self == this
      ensures tag == Tag.Map && value == MapValue(val)
      ensures Consistent(Snapshot())
    {
      tag := Tag.Map;
      value := MapValue(val);
      self := this;
    }

    /** `set<ConfArray>`: the element now holds the given array, tagged `Array`. */
    method SetArray(val: seq<Elem>) returns (self: ConfElem)
      modifies this
      ensures self == this
      ensures tag == Tag.Array && value == ArrayValue(val)
      ensures Consistent(Snapshot())
    {
      tag := Tag.Array;
      value := ArrayValue(val);
      self := this;
    }

    /**
     * `set<char *>`: the element now holds the text before the first NUL of
     * the character array, tagged `String`.
     */
    method SetCString(val: seq<char>) returns (self: ConfElem)
      requires '\0' in val
      modifies this
      ensures self == this
      ensures tag == String && value == Text(CStringPrefix(val))
      ensures Consistent(Snapshot())
    {
      tag := String;
      value := Text(CStringPrefix(val));
      self := this;
    }

    /** `set<std::string>`: the element now holds the given text, tagged `String`. */
    method SetString(val: string) returns (self: ConfElem)
      modifies this
      ensures self == this
      ensures tag == String && value == Text(val)
      ensures Consistent(Snapshot())
    {
      tag := String;
      value := Text(val);
      self := this;
    }

    /** `set<int>`: the element now holds the same number as a `long long`, tagged `Integer`. */
    method SetInt(val: Int32) returns (self: ConfElem)
      modifies this
      ensures self == this
      ensures tag == Integer && value.LongLong? && value.n as int == val as int
      ensures Consistent(Snapshot())
    {
      tag := Integer;
      value := LongLong(WidenToLongLong(val));
      self := this;
    }

    /** `set<long long>`: the element now holds the given number, tagged `Integer`. */
    method SetLongLong(val: Int64) returns (self: ConfElem)
      modifies this
      ensures self == this
      ensures tag == Integer && value == LongLong(val)
      ensures Consistent(Snapshot())
    {
      tag := Integer;
      value := LongLong(val);
      self := this;
    }

    /**
     * `set<float>` as written: the payload is the `double` the argument
     * widens to, but the tag is `Integer`, so the two disagree.
     */
    method SetFloat(val: F32) returns (self: ConfElem)
      modifies this
      ensures self == this
      ensures tag == Integer && value == Real(val.asDouble)
      ensures !Consistent(Snapshot())
    {
      tag := Integer;
      value := Real(val.asDouble);
      self := this;
    }

    /**
     * `set<float>` as its documentation describes it ("Set a double value",
     * an alias of `set<double>`): the widened value, tagged `Double`.
     */
    method SetFloatAsDouble(val: F32) returns (self: ConfElem)
      modifies this
      ensures self == this
      ensures tag == Double && value == Real(val.asDouble)
      ensures Consistent(Snapshot())
    {
      tag := Double;
      value := Real(val.asDouble);
      self := this;
    }

    /** `set<double>`: the element now holds the given value, tagged `Double`. */
    method SetDouble(val: F64) returns (self: ConfElem)
      modifies this
      ensures self == this
      ensures tag == Double && value == Real(val)
      ensures Consistent(Snapshot())
    {
      tag := Double;
      value := Real(val);
      self := this;
    }

    /** `set<bool>`: the element now holds the given flag, tagged `Boolean`. */
    method SetBool(val: bool) returns (self: ConfElem)
      modifies this
      ensures self == this
      ensures tag == Boolean && value == Flag(val)
      ensures Consistent(Snapshot())
    {
      tag := Boolean;
      value := Flag(val);
      self := this;
    }
  }

  /**
   * What a caller that trusts the public `type` field sees after
   * `set<float>`: the field says `Integer`, yet `std::get<long long>` on the
   * payload would throw, since the payload holds a `double`.
   */
  method FloatSetterMislabelsPayload(e: ConfElem, val: F32)
    modifies e
    ensures e.tag == Integer
    ensures !e.value.LongLong? && e.value.Real?
  {
    var _ := e.SetFloat(val);
  }
}
