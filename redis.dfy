/** The key/value store: string keys holding string values, each with an optional expiry
    in whole seconds. A key whose time has run out is simply absent. */
module Redis {
  import opened Common

  datatype Expiry = Persistent | ExpiresIn(seconds: nat)

  datatype Entry = Entry(value: string, expiry: Expiry)

  type Store = map<string, Entry>

  /** `GET key`: the value, or `null` when the key is absent. */
  function ValueAt(s: Store, key: string): (r: Option<string>)
    ensures r.Some? <==> key in s
    ensures r.Some? ==> r.value == s[key].value
  {
    if key in s then Some(s[key].value) else None
  }

  /** `EXISTS key`: the number of the given keys that are present. */
  function KeyCount(s: Store, key: string): (n: nat)
    ensures n <= 1
    ensures n == 1 <==> key in s
  {
    if key in s then 1 else 0
  }

  /** `TTL key`: -2 for an absent key, -1 for a key without expiry, otherwise the
      remaining seconds. */
  function TtlOf(s: Store, key: string): (t: int)
    ensures t == -2 <==> key !in s
    ensures t == -1 <==> key in s && s[key].expiry.Persistent?
    ensures t >= 0 <==> key in s && s[key].expiry.ExpiresIn?
    ensures t >= 0 ==> t == s[key].expiry.seconds
  {
    if key !in s then -2
    else match s[key].expiry
      case Persistent => -1
      case ExpiresIn(n) => n
  }

  /** `SET key value EX seconds`. */
  function SetEx(s: Store, key: string, value: string, seconds: nat): (r: Store)
    ensures r.Keys == s.Keys + {key}
    ensures r[key] == Entry(value, ExpiresIn(seconds))
    ensures forall k :: k in s && k != key ==> r[k] == s[k]
  {
    s[key := Entry(value, ExpiresIn(seconds))]
  }

  /** `DEL key`. */
  function Delete(s: Store, key: string): (r: Store)
    ensures r.Keys == s.Keys - {key}
    ensures forall k :: k in r ==> r[k] == s[k]
  {
    s - {key}
  }

  /** The store `d` seconds later: every expiry counts down, and a key whose remaining
      time is used up disappears. */
  function Elapse(s: Store, d: nat): (r: Store)
    ensures forall k :: k in r <==> k in s && (s[k].expiry.Persistent? || s[k].expiry.seconds > d)
    ensures forall k :: k in r ==> r[k].value == s[k].value
    ensures forall k :: k in r && s[k].expiry.Persistent? ==> r[k].expiry.Persistent?
    ensures forall k :: k in r && s[k].expiry.ExpiresIn? ==> r[k].expiry == ExpiresIn(s[k].expiry.seconds - d)
  {
    map k | k in s && (s[k].expiry.Persistent? || s[k].expiry.seconds > d) ::
      match s[k].expiry
      case Persistent => s[k]
      case ExpiresIn(n) => Entry(s[k].value, ExpiresIn(n - d))
  }

  /** The Redis client that the services share. Every command is one step on `data`;
      `Eval` runs a whole script as one indivisible step. */
  class RedisClient {
    var data: Store

    constructor (initial: Store)
      ensures data == initial
    {
      data := initial;
    }

    method Get(key: string) returns (v: Option<string>)
      ensures v == ValueAt(data, key)
    {
      v := ValueAt(data, key);
    }

    method Exists(key: string) returns (n: nat)
      ensures n == KeyCount(data, key)
    {
      n := KeyCount(data, key);
    }

    method Ttl(key: string) returns (t: int)
      ensures t == TtlOf(data, key)
    {
      t := TtlOf(data, key);
    }

    /** `SET key value EX seconds`; Redis rejects a non-positive expiry. */
    method Set(key: string, value: string, seconds: nat)
      requires seconds > 0
      modifies this
      ensures data == SetEx(old(data), key, value, seconds)
    {
      data := SetEx(data, key, value, seconds);
    }

    method Del(key: string)
      modifies this
      ensures data == Delete(old(data), key)
    {
      data := Delete(data, key);
    }

    /** `EVAL script`: the script's whole effect happens in one step. */
    method Eval(script: Store -> Store)
      modifies this
      ensures data == script(old(data))
    {
      data := script(data);
    }
  }
}
