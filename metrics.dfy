/**
 * What both listeners hand to a metrics client: `key:value` tags, whole seconds
 * from milliseconds, the StatsD client handle, and the StatsD calls made on it.
 */
module Metrics {
  import opened Wrappers
  import opened JavaLong
  import opened JavaString

  /** A tag as the clients take it, `key:value`. */
  function Tag(key: string, value: string): (t: string)
    ensures |t| == |key| + 1 + |value| && t[|key|] == ':'
    ensures t[..|key|] == key && t[|key| + 1..] == value
  {
    key + ":" + value
  }

  /** Reads a tag back: the text before its first colon and the text after it. */
  function TagParts(t: string): (r: Option<(string, string)>)
    ensures r.Some? <==> ':' in t
    ensures r.Some? ==> ':' !in r.value.0 && Tag(r.value.0, r.value.1) == t
  {
    if ':' !in t then None
    else
      var i := IndexOf(t, ':');
      assert t == t[..i] + ":" + t[i + 1..];
      Some((t[..i], t[i + 1..]))
  }

  /** A key without a colon is read back whole from its tag, and so is the value. */
  lemma TagRoundTrip(key: string, value: string)
    requires ':' !in key
    ensures TagParts(Tag(key, value)) == Some((key, value))
  {
    var t := Tag(key, value);
    assert t[|key|] == ':';
    assert t[..|key|] == key && t[|key| + 1..] == value;
  }

  /** Milliseconds to whole seconds by Java's `ms / 1000`, which truncates toward zero. */
  function Seconds(ms: int): (s: int)
    ensures ms >= 0 ==> s >= 0 && s * 1000 <= ms < s * 1000 + 1000
    ensures ms < 0 ==> s <= 0 && s * 1000 - 1000 < ms <= s * 1000
    ensures IsLong(ms) ==> IsLong(s)
  {
    Quot(ms, 1000)
  }

  /** A `NonBlockingStatsDClient`: the metric-name prefix and the daemon's host and port. */
  datatype Handle = Handle(prefix: string, host: string, port: int)

  /** A call on a StatsD client: `gauge(aspect, value, tags...)` or `count(aspect, delta, tags...)`. */
  datatype StatsdCall =
    | Gauge(aspect: string, value: int, tags: seq<string>)
    | Count(aspect: string, delta: int, tags: seq<string>)
}
