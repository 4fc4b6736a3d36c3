/** The two string helpers of the utilities file: building a Redis key from a prefix and
    an id, and taking the message half of a `"code:message"` error string. */
module Utils {
  import opened Common
  import opened Js

  /** `generateRedisKey(prefix, key)`: the prefix, one colon, the key. */
  function GenerateRedisKey(prefix: string, key: string): (r: string)
    ensures |r| == |prefix| + 1 + |key|
    ensures r[..|prefix|] == prefix && r[|prefix|] == ':' && r[|prefix| + 1..] == key
  {
    prefix + ":" + key
  }

  /** For a fixed prefix, different ids give different keys. */
  lemma GenerateRedisKeyInjective(prefix: string, k1: string, k2: string)
    ensures GenerateRedisKey(prefix, k1) == GenerateRedisKey(prefix, k2) <==> k1 == k2
  {
    if GenerateRedisKey(prefix, k1) == GenerateRedisKey(prefix, k2) {
      assert k1 == GenerateRedisKey(prefix, k1)[|prefix| + 1..];
    }
  }

  /** A prefix that already ends in a colon gets a second one: the key built for prefix
      `p + ":"` is never the plain concatenation `p + ":" + k`. */
  lemma GenerateRedisKeyDoublesColon(p: string, k: string)
    ensures GenerateRedisKey(p + ":", k) == p + "::" + k
    ensures GenerateRedisKey(p + ":", k) != p + ":" + k
  {
    assert |GenerateRedisKey(p + ":", k)| == |p + ":" + k| + 1;
  }

  /** `getErrorMessage(message)`: the second `':'`-separated piece, `undefined` when there
      is none. */
  function GetErrorMessage(message: string): (r: Option<string>)
    ensures r.None? <==> ':' !in message
    ensures r.Some? ==> ':' !in r.value
  {
    var parts := Split(message, ':');
    JoinSplit(message, ':');
    if |parts| >= 2 then
      assert message[|parts[0]|] == ':';
      Some(parts[1])
    else
      None
  }

  /** For `"c:m"` with no colon in `c` or `m`, the message is `m`. */
  lemma GetErrorMessageOfPair(c: string, m: string)
    requires ':' !in c && ':' !in m
    ensures GetErrorMessage(c + ":" + m) == Some(m)
  {
    assert c + ":" + m == Join([c, m], ':');
    SplitJoin([c, m], ':');
  }
}
