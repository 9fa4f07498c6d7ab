/**
 * `get_intent(query)`: the classifier's reply is trimmed, a code fence is
 * removed, the text is parsed as JSON and the parsed value is kept only when
 * it holds an "intent"; every failure gives the default
 * `{"intent": "general_inquiry", "confidence": 0.5}`. The classifier call and
 * the JSON parser are inputs: the reply is `None` when the call (or reading
 * its text) raised, and the parser returns `None` when `json.loads` raised.
 */
module Intent {
  import opened Wrappers
  import opened Text

  /** A parsed JSON value. */
  datatype Json =
    | JNull
    | JBool(b: bool)
    | JNumber(n: real)
    | JString(s: string)
    | JArray(items: seq<Json>)
    | JObject(fields: map<string, Json>)

  const Fence: string := "```"
  const Backtick: set<char> := {'`'}

  /** The default classification. */
  function DefaultIntent(): Json {
    JObject(map["intent" := JString("general_inquiry"), "confidence" := JNumber(0.5)])
  }

  /**
   * `raw = text.strip()`, then `raw.strip("`").strip()` when `raw` starts
   * with a code fence.
   */
  function CleanReply(text: string): (r: string)
    ensures r == [] || (r[0] !in Whitespace && r[|r| - 1] !in Whitespace)
  {
    var raw := Strip(text, Whitespace);
    if StartsWith(raw, Fence) then Strip(Strip(raw, Backtick), Whitespace) else raw
  }

  /** The cleaned reply is a contiguous piece of the reply. */
  lemma CleanReplyIsPiece(text: string) returns (i: nat, j: nat)
    ensures i <= j <= |text| && text[i..j] == CleanReply(text)
  {
    var i0, j0 := StripIsSlice(text, Whitespace);
    var raw := Strip(text, Whitespace);
    if StartsWith(raw, Fence) {
      var i1, j1 := UnfencedIsPiece(raw);
      i, j := PieceOfPiece(text, raw, CleanReply(text), i0, j0, i1, j1);
    } else {
      i, j := i0, j0;
    }
  }

  /** Stripping the fence and then the surrounding whitespace leaves a piece of the text. */
  lemma UnfencedIsPiece(raw: string) returns (i: nat, j: nat)
    ensures i <= j <= |raw| && raw[i..j] == Strip(Strip(raw, Backtick), Whitespace)
  {
    var inner := Strip(raw, Backtick);
    var i1, j1 := StripIsSlice(raw, Backtick);
    var i2, j2 := StripIsSlice(inner, Whitespace);
    i, j := PieceOfPiece(raw, inner, Strip(inner, Whitespace), i1, j1, i2, j2);
  }

  /** A piece of a piece of `a` is a piece of `a`. */
  lemma PieceOfPiece(a: string, b: string, c: string, i1: nat, j1: nat, i2: nat, j2: nat) returns (i: nat, j: nat)
    requires i1 <= j1 <= |a| && b == a[i1..j1] && i2 <= j2 <= |b| && c == b[i2..j2]
    ensures i <= j <= |a| && c == a[i..j]
  {
    i, j := i1 + i2, i1 + j2;
    forall m | 0 <= m < j2 - i2 ensures c[m] == a[i..j][m] {
      assert c[m] == b[i2 + m] == a[i1 + i2 + m];
    }
  }

  /** Python's `"intent" in result`: a key of an object, an element of an array, a substring of a string. */
  function IntentMemberAsWritten(v: Json): Result<bool, string> {
    match v
    case JObject(m) => Success("intent" in m)
    case JArray(items) => Success(JString("intent") in items)
    case JString(s) => Success(Contains(s, "intent"))
    case _ => Failure("TypeError: argument of type is not iterable")
  }

  /** `get_intent` as written: whatever `in` accepts is returned unchanged. */
  function GetIntentAsWritten(reply: Option<string>, parse: string -> Option<Json>): Json {
    match reply
    case None => DefaultIntent()
    case Some(text) =>
      match parse(CleanReply(text))
      case None => DefaultIntent()
      case Some(v) =>
        match IntentMemberAsWritten(v)
        case Success(true) => v
        case _ => DefaultIntent()
  }

  /** `intent_result['intent']`: only an object can be indexed by a string key. */
  function IntentField(v: Json): Result<Json, string> {
    match v
    case JObject(m) => if "intent" in m then Success(m["intent"]) else Failure("KeyError: 'intent'")
    case _ => Failure("TypeError: indices must be integers")
  }

  /** The parsed value holds an "intent" key. */
  predicate HasIntent(v: Json) {
    v.JObject? && "intent" in v.fields
  }

  /** `get_intent` as its contract reads: the parsed value is kept only when it is an object with an "intent" key. */
  function GetIntent(reply: Option<string>, parse: string -> Option<Json>): (r: Json)
    ensures HasIntent(r)
  {
    match reply
    case None => DefaultIntent()
    case Some(text) =>
      match parse(CleanReply(text))
      case None => DefaultIntent()
      case Some(v) => if HasIntent(v) then v else DefaultIntent()
  }

  /**
   * The classification is the parsed reply exactly when that reply is an
   * object with an "intent" key, and the default otherwise; its "intent"
   * field can always be read.
   */
  lemma GetIntentSpec(reply: Option<string>, parse: string -> Option<Json>)
    ensures IntentField(GetIntent(reply, parse)).Success?
    ensures reply.Some? && parse(CleanReply(reply.value)).Some? && HasIntent(parse(CleanReply(reply.value)).value)
            ==> GetIntent(reply, parse) == parse(CleanReply(reply.value)).value
    ensures !(reply.Some? && parse(CleanReply(reply.value)).Some? && HasIntent(parse(CleanReply(reply.value)).value))
            ==> GetIntent(reply, parse) == DefaultIntent()
  {
  }

  /** The corrected and the written versions agree on every reply that parses to an object or to a scalar. */
  lemma GetIntentAgreesOnObjects(reply: Option<string>, parse: string -> Option<Json>)
    requires reply.Some? && parse(CleanReply(reply.value)).Some?
    requires !parse(CleanReply(reply.value)).value.JArray? && !parse(CleanReply(reply.value)).value.JString?
    ensures GetIntent(reply, parse) == GetIntentAsWritten(reply, parse)
  {
    AgreeOnValue(parse(CleanReply(reply.value)).value);
  }

  /** On an object or a scalar, the written membership test accepts exactly what `HasIntent` accepts. */
  lemma AgreeOnValue(v: Json)
    requires !v.JArray? && !v.JString?
    ensures IntentMemberAsWritten(v) == Success(true) <==> HasIntent(v)
  {
  }

  /**
   * As written, a reply that parses to the array `["intent"]` (the reply
   * text `["intent"]`, say) is returned unchanged, and reading its "intent"
   * field then fails; the corrected classification is the default.
   */
  lemma ArrayReplyBreaksIntentField(text: string, parse: string -> Option<Json>)
    requires parse(CleanReply(text)) == Some(JArray([JString("intent")]))
    ensures GetIntentAsWritten(Some(text), parse) == JArray([JString("intent")])
    ensures IntentField(GetIntentAsWritten(Some(text), parse)).Failure?
    ensures GetIntent(Some(text), parse) == DefaultIntent()
  {
    var v := JArray([JString("intent")]);
    IntentArrayAccepted();
    AsWrittenKeeps(text, parse, v);
  }

  /** The array `["intent"]` passes the written membership test but is not an object with that key. */
  lemma IntentArrayAccepted()
    ensures IntentMemberAsWritten(JArray([JString("intent")])) == Success(true)
    ensures !HasIntent(JArray([JString("intent")]))
  {
    assert JString("intent") in [JString("intent")];
  }

  /** As written, any parsed value that passes the membership test is returned unchanged. */
  lemma AsWrittenKeeps(text: string, parse: string -> Option<Json>, v: Json)
    requires parse(CleanReply(text)) == Some(v)
    requires IntentMemberAsWritten(v) == Success(true)
    ensures GetIntentAsWritten(Some(text), parse) == v
  {
  }

  /**
   * A fenced reply loses its fences and the whitespace just inside them:
   * whatever else stands between the fences is kept, so a language tag
   * such as the "json" of "```json\n{...}\n```" stays in the text handed
   * to the parser, while the newline before the closing fence goes.
   */
  lemma FencedReply(inner: string)
    requires inner != [] && inner[0] !in Backtick && inner[|inner| - 1] !in Backtick
    ensures CleanReply(Fence + inner + Fence) == Strip(inner, Whitespace)
  {
    var text := Fence + inner + Fence;
    OuterStripKeeps(text, inner);
    CleanFenced(text);
    FenceStripped(text, inner);
  }

  /** A fenced text has no whitespace to strip at its ends, and starts with a fence. */
  lemma OuterStripKeeps(text: string, inner: string)
    requires text == Fence + inner + Fence
    ensures Strip(text, Whitespace) == text && StartsWith(text, Fence)
  {
    assert '`' !in Whitespace;
    FenceKeeps(text, inner, Whitespace);
  }

  /** A fenced text is left alone by stripping any set without the backtick. */
  lemma FenceKeeps(text: string, inner: string, cs: set<char>)
    requires text == Fence + inner + Fence && '`' !in cs
    ensures Strip(text, cs) == text && StartsWith(text, Fence)
  {
    assert text[0] == '`' && text[|text| - 1] == '`';
    StripUnchanged(text, cs);
    assert text[..3] == Fence;
  }

  /** Cleaning a text that starts with a fence and has nothing to strip outside it. */
  lemma CleanFenced(text: string)
    requires Strip(text, Whitespace) == text && StartsWith(text, Fence)
    ensures CleanReply(text) == Strip(Strip(text, Backtick), Whitespace)
  {
  }

  /** Stripping backticks from a fenced text leaves what stands between the fences. */
  lemma FenceStripped(text: string, inner: string)
    requires inner != [] && inner[0] !in Backtick && inner[|inner| - 1] !in Backtick
    requires text == Fence + inner + Fence
    ensures Strip(text, Backtick) == inner
  {
    forall k | 0 <= k < 3 ensures text[k] in Backtick {
      assert text[k] == Fence[k];
    }
    assert text[3] == inner[0];
    TrimLeftIs(text, Backtick, 3);
    var left := text[3..];
    assert left == inner + Fence;
    forall k | |inner| <= k < |left| ensures left[k] in Backtick {
      assert left[k] == Fence[k - |inner|];
    }
    assert left[|inner| - 1] == inner[|inner| - 1];
    TrimRightIs(left, Backtick, |inner|);
    assert left[..|inner|] == inner;
  }
}
