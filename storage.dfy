/**
 * The device's persistent key-value store (AsyncStorage), as an abstract map.
 * The app stores strings; a value that the app serialises with
 * `JSON.stringify` is kept here as the structured value itself, so
 * `JSON.parse(JSON.stringify(x)) == x` is taken for granted.
 */
module KeyValue {
  import opened Wrappers
  import opened Types

  datatype Value =
    | Text(s: string)                          // a token, stored as is
    | UserJson(user: User)                     // `JSON.stringify(user)`
    | CalendarsJson(calendars: seq<Calendar>)  // `JSON.stringify(calendars)`

  const AccessTokenKey := "@access_token"
  const RefreshTokenKey := "@refresh_token"
  const UserKey := "@user"
  const CalendarsKey := "@calendars"

  /** The three keys that hold a session. */
  const AuthKeys := [AccessTokenKey, RefreshTokenKey, UserKey]

  /** `getItem(key)`: the stored value, or `null`. */
  function Lookup(m: map<string, Value>, key: string): Option<Value>
  {
    if key in m then Some(m[key]) else None
  }

  /** The string `getItem` yields for a value written as text, or `null`. */
  function TextOf(v: Option<Value>): Option<string>
  {
    if v.Some? && v.value.Text? then Some(v.value.s) else None
  }

  /** A stored string when JavaScript treats it as truthy: present and not empty. */
  function TruthyText(v: Option<Value>): (t: Option<string>)
    ensures t.Some? <==> TextOf(v).Some? && TextOf(v).value != ""
    ensures t.Some? ==> t == TextOf(v)
  {
    match TextOf(v)
    case Some(s) => if s != "" then Some(s) else None
    case None => None
  }

  /** The token stored at `key`, when it is there and not empty. */
  function Token(m: map<string, Value>, key: string): Option<string>
  {
    TruthyText(Lookup(m, key))
  }

  /** `multiSet(pairs)`: the pairs written in order (a later pair wins). */
  function SetAll(m: map<string, Value>, pairs: seq<(string, Value)>): map<string, Value>
    decreases |pairs|
  {
    if pairs == [] then m else SetAll(m[pairs[0].0 := pairs[0].1], pairs[1..])
  }

  /** `multiRemove(keys)`: every listed key is gone and nothing else changes. */
  function RemoveAll(m: map<string, Value>, keys: seq<string>): (r: map<string, Value>)
    ensures forall k :: k in r <==> k in m && k !in keys
    ensures forall k :: k in r ==> r[k] == m[k]
  {
    map k | k in m && k !in keys :: m[k]
  }

  /**
   * Writing pairs with distinct keys sets exactly those keys to their values
   * and leaves every other key as it was.
   */
  lemma {:induction false} SetAllDistinct(m: map<string, Value>, pairs: seq<(string, Value)>)
    requires forall i, j :: 0 <= i < j < |pairs| ==> pairs[i].0 != pairs[j].0
    ensures forall k :: k in SetAll(m, pairs) <==> k in m || exists i :: 0 <= i < |pairs| && pairs[i].0 == k
    ensures forall i :: 0 <= i < |pairs| ==> SetAll(m, pairs)[pairs[i].0] == pairs[i].1
    ensures forall k :: k in m && (forall i :: 0 <= i < |pairs| ==> pairs[i].0 != k) ==>
                        SetAll(m, pairs)[k] == m[k]
    decreases |pairs|
  {
    if pairs != [] {
      var m' := m[pairs[0].0 := pairs[0].1];
      var rest := pairs[1..];
      SetAllDistinct(m', rest);
      assert SetAll(m, pairs) == SetAll(m', rest);
      forall k | k in SetAll(m, pairs) ensures k in m || exists i :: 0 <= i < |pairs| && pairs[i].0 == k {
        if k !in m && k != pairs[0].0 {
          assert k in SetAll(m', rest) && k !in m';
          assert exists i :: 0 <= i < |rest| && rest[i].0 == k;
          var i :| 0 <= i < |rest| && rest[i].0 == k;
          assert pairs[i + 1].0 == k;
        }
      }
      forall k | k in m || exists i :: 0 <= i < |pairs| && pairs[i].0 == k ensures k in SetAll(m, pairs) {
        if k !in m && k != pairs[0].0 {
          var i :| 0 <= i < |pairs| && pairs[i].0 == k;
          assert rest[i - 1].0 == k;
        }
      }
      forall i | 0 <= i < |pairs| ensures SetAll(m, pairs)[pairs[i].0] == pairs[i].1 {
        if i > 0 {
          assert rest[i - 1] == pairs[i];
        } else {
          assert forall j :: 0 <= j < |rest| ==> rest[j].0 != pairs[0].0 by {
            forall j | 0 <= j < |rest| ensures rest[j].0 != pairs[0].0 { assert rest[j] == pairs[j + 1]; }
          }
        }
      }
      forall k | k in m && (forall i :: 0 <= i < |pairs| ==> pairs[i].0 != k)
        ensures SetAll(m, pairs)[k] == m[k]
      {
        assert pairs[0].0 != k;
        assert forall j :: 0 <= j < |rest| ==> rest[j].0 != k by {
          forall j | 0 <= j < |rest| ensures rest[j].0 != k { assert rest[j] == pairs[j + 1]; }
        }
      }
    }
  }

  /** AsyncStorage: a mutable map, shared by every part of the app. */
  class Storage {
    var entries: map<string, Value>

    constructor (initial: map<string, Value>)
      ensures entries == initial
    {
      entries := initial;
    }

    method GetItem(key: string) returns (v: Option<Value>)
      ensures v == Lookup(entries, key)
    {
      v := if key in entries then Some(entries[key]) else None;
    }

    method SetItem(key: string, value: Value)
      modifies this
      ensures entries == old(entries)[key := value]
    {
      entries := entries[key := value];
    }

    method MultiSet(pairs: seq<(string, Value)>)
      modifies this
      ensures entries == SetAll(old(entries), pairs)
    {
      entries := SetAll(entries, pairs);
    }

    method MultiRemove(keys: seq<string>)
      modifies this
      ensures entries == RemoveAll(old(entries), keys)
    {
      entries := RemoveAll(entries, keys);
    }
  }
}
