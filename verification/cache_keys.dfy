/**
 * Cache-key normalisation shared by both cache layers: every character
 * outside [a-zA-Z0-9] is replaced by an underscore (a global regex replace
 * in src/middleware/cache.ts and src/utils/ponder-service.ts).
 */
module CacheKeys {

  predicate IsAlnum(c: char) {
    ('a' <= c <= 'z') || ('A' <= c <= 'Z') || ('0' <= c <= '9')
  }

  /** The alphabet of every derived key. */
  predicate IsKeyChar(c: char) {
    IsAlnum(c) || c == '_'
  }

  function KeyChar(c: char): char {
    if IsAlnum(c) then c else '_'
  }

  /** The key derived from a request target or an endpoint. */
  function Normalize(s: string): (k: string)
    ensures |k| == |s|
    ensures forall i :: 0 <= i < |k| ==> IsKeyChar(k[i])
  {
    if |s| == 0 then [] else [KeyChar(s[0])] + Normalize(s[1..])
  }

  /**
   * The recursive definition is the global regex replacement: position by
   * position, an alphanumeric character is kept and any other becomes `_`.
   */
  lemma {:induction false} NormalizeAt(s: string, i: int)
    requires 0 <= i < |s|
    ensures Normalize(s)[i] == (if IsAlnum(s[i]) then s[i] else '_')
  {
    if i > 0 {
      NormalizeAt(s[1..], i - 1);
    }
  }

  /** Normalising works character by character, so it distributes over concatenation. */
  lemma {:induction false} NormalizeAppend(a: string, b: string)
    ensures Normalize(a + b) == Normalize(a) + Normalize(b)
  {
    if a == [] {
      assert a + b == b;
    } else {
      assert (a + b)[1..] == a[1..] + b;
      NormalizeAppend(a[1..], b);
    }
  }

  /** A string already made of key characters is its own key. */
  lemma {:induction false} KeyIsFixedPoint(k: string)
    requires forall i :: 0 <= i < |k| ==> IsKeyChar(k[i])
    ensures Normalize(k) == k
  {
    if k != [] {
      KeyIsFixedPoint(k[1..]);
    }
  }

  /** Normalising a key again changes nothing. */
  lemma {:induction false} NormalizeIdempotent(s: string)
    ensures Normalize(Normalize(s)) == Normalize(s)
  {
    KeyIsFixedPoint(Normalize(s));
  }

  /** Two purely alphanumeric strings never share a key. */
  lemma {:induction false} NormalizeInjectiveOnAlnum(s: string, t: string)
    requires forall i :: 0 <= i < |s| ==> IsAlnum(s[i])
    requires forall i :: 0 <= i < |t| ==> IsAlnum(t[i])
    requires Normalize(s) == Normalize(t)
    ensures s == t
  {
    forall i | 0 <= i < |s|
      ensures s[i] == t[i]
    {
      NormalizeAt(s, i);
      NormalizeAt(t, i);
    }
  }

  /** Strings that differ only where both hold non-alphanumerics share a key. */
  lemma {:induction false} SameKeyUpToPunctuation(s: string, t: string)
    requires |s| == |t|
    requires forall i :: 0 <= i < |s| ==> s[i] == t[i] || (!IsAlnum(s[i]) && !IsAlnum(t[i]))
    ensures Normalize(s) == Normalize(t)
  {
    if s != [] {
      assert s[0] == t[0] || (!IsAlnum(s[0]) && !IsAlnum(t[0]));
      assert forall i :: 0 <= i < |s[1..]| ==> s[1..][i] == s[i + 1] && t[1..][i] == t[i + 1];
      SameKeyUpToPunctuation(s[1..], t[1..]);
    }
  }

  /**
   * Conversely, two strings share a key only if they have the same length and
   * differ only where both hold non-alphanumerics.
   */
  lemma SameKeyOnlyUpToPunctuation(s: string, t: string)
    requires Normalize(s) == Normalize(t)
    ensures |s| == |t|
    ensures forall i :: 0 <= i < |s| ==> s[i] == t[i] || (!IsAlnum(s[i]) && !IsAlnum(t[i]))
  {
    forall i | 0 <= i < |s|
      ensures s[i] == t[i] || (!IsAlnum(s[i]) && !IsAlnum(t[i]))
    {
      NormalizeAt(s, i);
      NormalizeAt(t, i);
    }
  }

  /**
   * The substitution is lossy: a query string and a path that differ only
   * in punctuation alias the same key.
   */
  lemma KeysCanCollide()
    ensures "/a?x=1" != "/a_x=1"
    ensures Normalize("/a?x=1") == Normalize("/a_x=1")
  {
  }

  /**
   * An endpoint of the shape `/path?name=value` with alphanumeric parts is
   * stored under `_path_name_value`.
   */
  lemma {:induction false} QueryEndpointKey(path: string, name: string, value: string)
    requires forall i :: 0 <= i < |path| ==> IsAlnum(path[i])
    requires forall i :: 0 <= i < |name| ==> IsAlnum(name[i])
    requires forall i :: 0 <= i < |value| ==> IsAlnum(value[i])
    ensures Normalize("/" + (path + ("?" + (name + ("=" + value)))))
         == "_" + (path + ("_" + (name + ("_" + value))))
  {
    KeyIsFixedPoint(path);
    KeyIsFixedPoint(name);
    KeyIsFixedPoint(value);
    NormalizeAppend("/", path + ("?" + (name + ("=" + value))));
    NormalizeAppend(path, "?" + (name + ("=" + value)));
    NormalizeAppend("?", name + ("=" + value));
    NormalizeAppend(name, "=" + value);
    NormalizeAppend("=", value);
  }

  lemma MarketsEndpointSpelling()
    ensures "/markets?marketIndex=3" == "/" + ("markets" + ("?" + ("marketIndex" + ("=" + "3"))))
    ensures "_markets_marketIndex_3" == "_" + ("markets" + ("_" + ("marketIndex" + ("_" + "3"))))
  {
  }

  /** The endpoint `/markets?marketIndex=3` is stored under `_markets_marketIndex_3`. */
  lemma MarketsKey()
    ensures Normalize("/markets?marketIndex=3") == "_markets_marketIndex_3"
  {
    MarketsEndpointSpelling();
    QueryEndpointKey("markets", "marketIndex", "3");
  }

  lemma ForceFetchSpelling()
    ensures "forceFetch=true" == "forceFetch" + ("=" + "true")
    ensures "forceFetch_true" == "forceFetch" + ("_" + "true")
  {
  }

  /** A `name=value` query parameter with alphanumeric parts becomes `name_value`. */
  lemma ParamKey(name: string, value: string)
    requires forall i :: 0 <= i < |name| ==> IsAlnum(name[i])
    requires forall i :: 0 <= i < |value| ==> IsAlnum(value[i])
    ensures Normalize(name + ("=" + value)) == name + ("_" + value)
  {
    KeyIsFixedPoint(name);
    KeyIsFixedPoint(value);
    NormalizeAppend(name, "=" + value);
    NormalizeAppend("=", value);
  }

  /** A query parameter with alphanumeric name and value survives in the key, with `=` as `_`. */
  lemma ParamStaysInKey(prefix: string, name: string, value: string, after: string)
    requires forall i :: 0 <= i < |name| ==> IsAlnum(name[i])
    requires forall i :: 0 <= i < |value| ==> IsAlnum(value[i])
    ensures Normalize(prefix + (name + ("=" + value)) + after)
         == Normalize(prefix) + (name + ("_" + value)) + Normalize(after)
  {
    var param := name + ("=" + value);
    assert prefix + param + after == prefix + (param + after);
    NormalizeAppend(prefix, param + after);
    NormalizeAppend(param, after);
    ParamKey(name, value);
  }

  /**
   * The `forceFetch=true` query parameter is not stripped: it stays in the
   * key, as `forceFetch_true`, wherever it occurs in the query string.
   */
  lemma ForceFetchStaysInKey(path: string, before: string, after: string)
    ensures Normalize(path + before + "forceFetch=true" + after)
         == Normalize(path + before) + "forceFetch_true" + Normalize(after)
  {
    ForceFetchSpelling();
    assert path + before + "forceFetch=true" + after == (path + before) + ("forceFetch" + ("=" + "true")) + after;
    ParamStaysInKey(path + before, "forceFetch", "true", after);
  }

  /** Keys keep the length of what they are derived from, so targets of different lengths never share one. */
  lemma KeysOfDifferentLengthsDiffer(a: string, b: string)
    requires |a| != |b|
    ensures Normalize(a) != Normalize(b)
  {
  }

  /**
   * So a forced request has a key of its own: adding `forceFetch=true`
   * anywhere in the query string (after `?` or `&`) changes the key.
   */
  lemma ForcedRequestHasOwnKey(path: string, before: string, after: string)
    ensures Normalize(path + before + "forceFetch=true" + after) != Normalize(path + before + after)
  {
  }
}
