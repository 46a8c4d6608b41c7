/**
 * The two ways the consumers pull the `token` parameter out of the raw
 * handshake query string. Neither percent-decodes: both are plain splitting
 * on `&` and `=`.
 */
module QueryString {
  import opened Wrappers
  import opened Text

  const TokenPrefix: string := "token="

  predicate StartsWith(s: string, p: string) {
    |p| <= |s| && s[..|p|] == p
  }

  /** `if not token`: a missing or empty token makes the consumer close the connection. */
  predicate Rejects(token: Option<string>) {
    token.None? || token.value == ""
  }

  // ---------------------------------------------------------------------------
  // PrivateChatConsumer: the first `&`-segment starting with `token=`, then `split("=")[1]`.
  // ---------------------------------------------------------------------------

  /** `param.split("=")[1]` on a segment that starts with `token=`: the text between its first and second `=`. */
  function TokenField(param: string): (t: string)
    requires StartsWith(param, TokenPrefix)
    ensures '=' !in t
    ensures param[|TokenPrefix|..] == t || StartsWith(param[|TokenPrefix|..], t + "=")
  {
    var rest := param[|TokenPrefix|..];
    assert param == "token" + ['='] + rest;
    SplitFirst("token", '=', rest);
    var parts := Split(param, '=');
    var t := parts[1];
    assert '=' in rest ==> (t + "=") == rest[..|t| + 1];
    t
  }

  /** No segment starts with `token=`. */
  predicate NoTokenSegment(params: seq<string>) {
    forall i | 0 <= i < |params| :: !StartsWith(params[i], TokenPrefix)
  }

  /** The generator `next((param.split("=")[1] for param in params if param.startswith("token=")), None)`. */
  function FirstToken(params: seq<string>): (r: Option<string>)
    ensures r.None? <==> NoTokenSegment(params)
    ensures r.Some? ==> exists i | 0 <= i < |params| :: StartsWith(params[i], TokenPrefix) && r.value == TokenField(params[i])
    decreases |params|
  {
    if params == [] then None
    else if StartsWith(params[0], TokenPrefix) then Some(TokenField(params[0]))
    else
      var r := FirstToken(params[1..]);
      assert forall i | 1 <= i < |params| :: params[i] == params[1..][i - 1];
      assert r.Some? ==> exists i | 0 <= i < |params| :: StartsWith(params[i], TokenPrefix) && r.value == TokenField(params[i]) by {
        if r.Some? {
          var i :| 0 <= i < |params[1..]| && StartsWith(params[1..][i], TokenPrefix) && r.value == TokenField(params[1..][i]);
          assert params[i + 1] == params[1..][i];
        }
      }
      r
  }

  /** The segment `FirstToken` reads is the first one that starts with `token=`. */
  lemma {:induction false} FirstTokenPicksFirst(params: seq<string>, j: nat)
    requires j < |params| && StartsWith(params[j], TokenPrefix)
    requires forall i | 0 <= i < j :: !StartsWith(params[i], TokenPrefix)
    ensures FirstToken(params) == Some(TokenField(params[j]))
    decreases j
  {
    if j > 0 {
      FirstTokenPicksFirst(params[1..], j - 1);
    }
  }

  /**
   * The token `PrivateChatConsumer.connect` extracts from a query string:
   * none exactly when no `&`-segment starts with `token=`, and otherwise a
   * text holding neither separator.
   */
  function PrivateChatToken(query: string): (r: Option<string>)
    ensures r.None? <==> NoTokenSegment(Split(query, '&'))
    ensures r.Some? ==> '&' !in r.value && '=' !in r.value
  {
    FirstTokenFree(Split(query, '&'), '&');
    FirstToken(Split(query, '&'))
  }

  /** A character no segment holds is not in the token either. */
  lemma FirstTokenFree(params: seq<string>, c: char)
    requires forall i | 0 <= i < |params| :: c !in params[i]
    ensures FirstToken(params).Some? ==> c !in FirstToken(params).value
  {
    var r := FirstToken(params);
    if r.Some? {
      var i :| 0 <= i < |params| && StartsWith(params[i], TokenPrefix) && r.value == TokenField(params[i]);
      FieldFree(params[i], c);
    }
  }

  /** A character absent from a `token=` segment is absent from its field. */
  lemma FieldFree(param: string, c: char)
    requires StartsWith(param, TokenPrefix) && c !in param
    ensures c !in TokenField(param)
  {
    var rest := param[|TokenPrefix|..];
    var t := TokenField(param);
    assert t == rest[..|t|];
    assert forall k | 0 <= k < |t| :: t[k] == param[|TokenPrefix| + k];
  }

  // ---------------------------------------------------------------------------
  // ChatListConsumer and OnlineStatusConsumer: a dict of `&`-segments split at the first `=`.
  // ---------------------------------------------------------------------------

  /** `param.split("=", 1) if "=" in param else (param, "")`. */
  function KeyValue(param: string): (kv: (string, string))
    ensures '=' in param ==> '=' !in kv.0 && kv.0 + "=" + kv.1 == param
    ensures '=' !in param ==> kv == (param, "")
  {
    if '=' in param then
      var i := IndexOf(param, '=');
      assert param == param[..i] + "=" + param[i + 1..];
      (param[..i], param[i + 1..])
    else
      (param, "")
  }

  /** A segment splits at its first `=`. */
  lemma KeyValueOf(key: string, value: string)
    requires '=' !in key
    ensures KeyValue(key + "=" + value) == (key, value)
  {
    var p := key + "=" + value;
    assert p == key + ['='] + value;
    IndexOfAfter(key, '=', value);
    assert p[..|key|] == key;
    assert p[|key| + 1..] == value;
  }

  /** `dict(...)` over the pairs, inserted left to right: its keys are the keys of the segments. */
  function QueryDict(params: seq<string>): (d: map<string, string>)
    ensures d.Keys == Keys(params)
    decreases |params|
  {
    if params == [] then map[]
    else
      var prefix := params[..|params| - 1];
      var kv := KeyValue(params[|params| - 1]);
      assert forall i | 0 <= i < |prefix| :: prefix[i] == params[i];
      assert Keys(params) == Keys(prefix) + {kv.0};
      QueryDict(prefix)[kv.0 := kv.1]
  }

  /** The keys of the segments. */
  function Keys(params: seq<string>): set<string> {
    set i | 0 <= i < |params| :: KeyValue(params[i]).0
  }

  /** Segment `j` carries key `k` and no later segment does. */
  predicate LastWith(params: seq<string>, k: string, j: nat) {
    j < |params| && KeyValue(params[j]).0 == k && forall i | j < i < |params| :: KeyValue(params[i]).0 != k
  }

  /** A last occurrence stays last when a segment with another key follows. */
  lemma LastWithExtend(params: seq<string>, k: string, j: nat)
    requires |params| > 0 && LastWith(params[..|params| - 1], k, j)
    requires KeyValue(params[|params| - 1]).0 != k
    ensures LastWith(params, k, j)
  {
    var prefix := params[..|params| - 1];
    forall i | j < i < |params|
      ensures KeyValue(params[i]).0 != k
    {
      if i < |prefix| {
        assert params[i] == prefix[i];
      }
    }
    assert params[j] == prefix[j];
  }

  /** A key in the dict holds the value of the last segment carrying it. */
  lemma {:induction false} QueryDictValue(params: seq<string>, k: string)
    requires k in QueryDict(params)
    ensures exists j | 0 <= j < |params| :: LastWith(params, k, j) && QueryDict(params)[k] == KeyValue(params[j]).1
    decreases |params|
  {
    var n := |params| - 1;
    var prefix := params[..n];
    var kv := KeyValue(params[n]);
    assert QueryDict(params) == QueryDict(prefix)[kv.0 := kv.1];
    if kv.0 == k {
      assert LastWith(params, k, n);
    } else {
      QueryDictValue(prefix, k);
      var j :| 0 <= j < |prefix| && LastWith(prefix, k, j) && QueryDict(prefix)[k] == KeyValue(prefix[j]).1;
      LastWithExtend(params, k, j);
    }
  }

  /** A repeated key keeps the value of its last occurrence. */
  lemma {:induction false} QueryDictLastWins(params: seq<string>, k: string, j: nat)
    requires j < |params| && KeyValue(params[j]).0 == k
    requires forall i | j < i < |params| :: KeyValue(params[i]).0 != k
    ensures k in QueryDict(params) && QueryDict(params)[k] == KeyValue(params[j]).1
    decreases |params|
  {
    if j < |params| - 1 {
      var prefix := params[..|params| - 1];
      QueryDictLastWins(prefix, k, j);
    }
  }

  /** A key no segment carries is absent from the dict. */
  lemma {:induction false} QueryDictMissing(params: seq<string>, k: string)
    requires forall i | 0 <= i < |params| :: KeyValue(params[i]).0 != k
    ensures k !in QueryDict(params)
    decreases |params|
  {
    if params != [] {
      QueryDictMissing(params[..|params| - 1], k);
    }
  }

  /**
   * `query_params.get("token")` in `ChatListConsumer.connect` and
   * `OnlineStatusConsumer.connect`: none exactly when no segment has the key
   * `token`, and otherwise the value of the last segment that has it.
   */
  function ListToken(query: string): (r: Option<string>)
    ensures r.None? <==> "token" !in Keys(Split(query, '&'))
    ensures r.Some? ==> exists j | 0 <= j < |Split(query, '&')| ::
      LastWith(Split(query, '&'), "token", j) && KeyValue(Split(query, '&')[j]).1 == r.value
  {
    var params := Split(query, '&');
    var d := QueryDict(params);
    if "token" in d then
      QueryDictValue(params, "token");
      Some(d["token"])
    else
      None
  }

  // ---------------------------------------------------------------------------
  // Where the two parsers part ways.
  // ---------------------------------------------------------------------------

  /** For a lone `token=v` segment, `split("=")[1]` stops at the first `=` of `v`. */
  lemma TokenFieldOf(t: string, rest: string)
    requires '=' !in t
    ensures TokenField(TokenPrefix + t) == t
    ensures TokenField(TokenPrefix + t + "=" + rest) == t
  {
    FieldAfterPrefix(t);
    assert Split(t, '=') == [t];
    var v := t + "=" + rest;
    assert TokenPrefix + t + "=" + rest == TokenPrefix + v;
    FieldAfterPrefix(v);
    assert v == t + ['='] + rest;
    SplitFirst(t, '=', rest);
  }

  /** The field of `token=v` is the first `=`-piece of `v`. */
  lemma FieldAfterPrefix(v: string)
    ensures StartsWith(TokenPrefix + v, TokenPrefix)
    ensures TokenField(TokenPrefix + v) == Split(v, '=')[0]
  {
    assert TokenPrefix + v == "token" + ['='] + v;
    SplitFirst("token", '=', v);
  }

  /** A query string of one `token=v` segment, read by both parsers. */
  lemma SingleTokenSegment(v: string)
    requires '&' !in v
    ensures PrivateChatToken(TokenPrefix + v) == Some(TokenField(TokenPrefix + v))
    ensures ListToken(TokenPrefix + v) == Some(v)
  {
    var q := TokenPrefix + v;
    assert '&' !in q;
    assert Split(q, '&') == [q];
    assert StartsWith(q, TokenPrefix);
    assert q == "token" + "=" + v;
    KeyValueOf("token", v);
    QueryDictLastWins([q], "token", 0);
  }

  /** A query string that is just `token=v`, with `v` free of `&` and `=`, yields `v` to both parsers. */
  lemma PlainTokenQuery(v: string)
    requires '&' !in v && '=' !in v
    ensures PrivateChatToken(TokenPrefix + v) == Some(v)
    ensures ListToken(TokenPrefix + v) == Some(v)
  {
    SingleTokenSegment(v);
    TokenFieldOf(v, "");
  }

  /** A token holding `=` is cut at it by the first parser and kept whole by the second. */
  lemma ParsersDisagreeOnEquals(t: string, rest: string)
    requires '=' !in t && '&' !in t && '&' !in rest
    ensures PrivateChatToken(TokenPrefix + t + "=" + rest) == Some(t)
    ensures ListToken(TokenPrefix + t + "=" + rest) == Some(t + "=" + rest)
  {
    var v := t + "=" + rest;
    assert TokenPrefix + t + "=" + rest == TokenPrefix + v;
    assert '&' !in v;
    SingleTokenSegment(v);
    TokenFieldOf(t, rest);
  }

  /** With `token` repeated, the first parser keeps the first value (here empty, so the connection closes), the second the last. */
  lemma ParsersDisagreeOnRepeats(k: string)
    requires '&' !in k
    ensures PrivateChatToken(TokenPrefix + "&" + TokenPrefix + k) == Some("")
    ensures Rejects(PrivateChatToken(TokenPrefix + "&" + TokenPrefix + k))
    ensures ListToken(TokenPrefix + "&" + TokenPrefix + k) == Some(k)
  {
    RepeatedTokenSegments(k);
    FirstTokenPicksFirst([TokenPrefix, TokenPrefix + k], 0);
    EmptyTokenField();
    LastTokenSegmentWins(k);
  }

  lemma RepeatedTokenSegments(k: string)
    requires '&' !in k
    ensures Split(TokenPrefix + "&" + TokenPrefix + k, '&') == [TokenPrefix, TokenPrefix + k]
  {
    var second := TokenPrefix + k;
    assert TokenPrefix + "&" + TokenPrefix + k == TokenPrefix + ['&'] + second;
    assert '&' !in TokenPrefix;
    SplitFirst(TokenPrefix, '&', second);
    assert '&' !in second;
    assert Split(second, '&') == [second];
  }

  lemma EmptyTokenField()
    ensures TokenField(TokenPrefix) == ""
  {
    TokenFieldOf("", "");
    assert TokenPrefix + "" == TokenPrefix;
  }

  lemma LastTokenSegmentWins(k: string)
    ensures "token" in QueryDict([TokenPrefix, TokenPrefix + k])
    ensures QueryDict([TokenPrefix, TokenPrefix + k])["token"] == k
  {
    assert TokenPrefix + k == "token" + "=" + k;
    KeyValueOf("token", k);
    QueryDictLastWins([TokenPrefix, TokenPrefix + k], "token", 1);
  }
}
