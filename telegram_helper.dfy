/**
 * Conditional parameter writers: each helper writes one key into the map it
 * is given, and only when the value differs from its type's zero value.
 * Modelled on telegram/helper.go.
 */
module TelegramHelper {
  import opened Wrappers
  import opened TelegramTypes

  /** The contents of a url.Values: every key maps to its list of values. */
  type Params = map<string, seq<string>>

  /** A url.Values, a reference type that the helpers update in place. */
  class UrlValues {
    var entries: Params

    constructor ()
      ensures entries == map[]
    {
      entries := map[];
    }

    /** url.Values.Set: the key's list becomes exactly [val]. */
    method Set(key: string, val: string)
      modifies this
      ensures entries == old(entries)[key := [val]]
    {
      entries := entries[key := [val]];
    }
  }

  /** A dynamically typed value stored in a map[string]interface{}; Nil is Go's nil interface. */
  datatype Any = Nil | Str(s: string) | Int(i: int) | Bool(b: bool) | Float(f: Float64)

  /** The contents of a map[string]interface{}. */
  type Fields = map<string, Any>

  /** A map[string]interface{}, a reference type that the helpers update in place. */
  class JsonMap {
    var entries: Fields

    constructor (init: Fields)
      ensures entries == init
    {
      entries := init;
    }
  }

  // ---------------------------------------------------------------------------
  // What each helper does to the map, as functions on its contents
  // ---------------------------------------------------------------------------

  /** Writes `val` under `key` when `present`, and leaves the map alone otherwise. */
  function PutIf<V>(m: map<string, V>, key: string, present: bool, val: V): (r: map<string, V>)
    ensures present ==> key in r && r[key] == val
    ensures !present ==> r == m
    ensures forall k :: k != key ==> (k in r <==> k in m)
    ensures forall k :: k != key && k in m ==> r[k] == m[k]
  {
    if present then m[key := val] else m
  }

  /** optStr: the key is set exactly when the string is non-empty. */
  function WithOptStr(m: Params, key: string, val: string): (r: Params)
    ensures key in r <==> val != "" || key in m
    ensures val != "" ==> r[key] == [val]
    ensures val == "" ==> r == m
    ensures forall k :: k != key ==> (k in r <==> k in m)
    ensures forall k :: k != key && k in m ==> r[k] == m[k]
  {
    PutIf(m, key, val != "", [val])
  }

  /** optInt: the key is set to the decimal rendering exactly when the number is not 0. */
  function WithOptInt(m: Params, key: string, val: int): (r: Params)
    ensures key in r <==> val != 0 || key in m
    ensures val != 0 ==> |r[key]| == 1 && ParseInt(r[key][0]) == Some(val)
    ensures val == 0 ==> r == m
    ensures forall k :: k != key ==> (k in r <==> k in m)
    ensures forall k :: k != key && k in m ==> r[k] == m[k]
  {
    FormatIntRoundTrip(val);
    PutIf(m, key, val != 0, [FormatInt(val)])
  }

  /** optBool: the key is set to "true" exactly when the flag is set; "false" is never written. */
  function WithOptBool(m: Params, key: string, val: bool): (r: Params)
    ensures key in r <==> val || key in m
    ensures val ==> r[key] == ["true"]
    ensures !val ==> r == m
    ensures forall k :: k != key ==> (k in r <==> k in m)
    ensures forall k :: k != key && k in m ==> r[k] == m[k]
  {
    PutIf(m, key, val, ["true"])
  }

  /** mapStr: the same presence rule as optStr, on a generic map. */
  function WithMapStr(m: Fields, key: string, val: string): (r: Fields)
    ensures key in r <==> val != "" || key in m
    ensures val != "" ==> r[key] == Str(val)
    ensures val == "" ==> r == m
    ensures forall k :: k != key ==> (k in r <==> k in m)
    ensures forall k :: k != key && k in m ==> r[k] == m[k]
  {
    PutIf(m, key, val != "", Str(val))
  }

  /** mapInt: the number itself is stored, and only when it is not 0. */
  function WithMapInt(m: Fields, key: string, val: int): (r: Fields)
    ensures key in r <==> val != 0 || key in m
    ensures val != 0 ==> r[key] == Int(val)
    ensures val == 0 ==> r == m
    ensures forall k :: k != key ==> (k in r <==> k in m)
    ensures forall k :: k != key && k in m ==> r[k] == m[k]
  {
    PutIf(m, key, val != 0, Int(val))
  }

  /** mapBool: true is stored when the flag is set; false never is. */
  function WithMapBool(m: Fields, key: string, val: bool): (r: Fields)
    ensures key in r <==> val || key in m
    ensures val ==> r[key] == Bool(true)
    ensures !val ==> r == m
    ensures forall k :: k != key ==> (k in r <==> k in m)
    ensures forall k :: k != key && k in m ==> r[k] == m[k]
  {
    PutIf(m, key, val, Bool(true))
  }

  /** mapJSON: any non-nil value is stored as it is. */
  function WithMapJSON(m: Fields, key: string, val: Any): (r: Fields)
    ensures key in r <==> !val.Nil? || key in m
    ensures !val.Nil? ==> r[key] == val
    ensures val.Nil? ==> r == m
    ensures forall k :: k != key ==> (k in r <==> k in m)
    ensures forall k :: k != key && k in m ==> r[k] == m[k]
  {
    PutIf(m, key, !val.Nil?, val)
  }

  // ---------------------------------------------------------------------------
  // The helpers themselves, writing into the map they are handed
  // ---------------------------------------------------------------------------

  method OptStr(ret: UrlValues, key: string, val: string)
    modifies ret
    ensures ret.entries == WithOptStr(old(ret.entries), key, val)
  {
    if val != "" {
      ret.Set(key, val);
    }
  }

  method OptInt(ret: UrlValues, key: string, val: int)
    modifies ret
    ensures ret.entries == WithOptInt(old(ret.entries), key, val)
  {
    if val != 0 {
      ret.Set(key, FormatInt(val));
    }
  }

  method OptBool(ret: UrlValues, key: string, val: bool)
    modifies ret
    ensures ret.entries == WithOptBool(old(ret.entries), key, val)
  {
    if val {
      ret.Set(key, "true");
    }
  }

  method MapStr(ret: JsonMap, key: string, val: string)
    modifies ret
    ensures ret.entries == WithMapStr(old(ret.entries), key, val)
  {
    if val != "" {
      ret.entries := ret.entries[key := Str(val)];
    }
  }

  method MapInt(ret: JsonMap, key: string, val: int)
    modifies ret
    ensures ret.entries == WithMapInt(old(ret.entries), key, val)
  {
    if val != 0 {
      ret.entries := ret.entries[key := Int(val)];
    }
  }

  method MapBool(ret: JsonMap, key: string, val: bool)
    modifies ret
    ensures ret.entries == WithMapBool(old(ret.entries), key, val)
  {
    if val {
      ret.entries := ret.entries[key := Bool(true)];
    }
  }

  method MapJSON(ret: JsonMap, key: string, val: Any)
    modifies ret
    ensures ret.entries == WithMapJSON(old(ret.entries), key, val)
  {
    if val != Nil {
      ret.entries := ret.entries[key := val];
    }
  }
}
