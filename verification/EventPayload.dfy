/**
 The text one event's digest covers: the version tag, the predecessor's hash and
 the six event fields, as one canonical JSON array.
 */
module EventPayload {
  import opened Wrappers
  import opened CanonicalJson

  const VERSION := "mcp-memory-events-v1"

  datatype Event = Event(id: int, timestamp: string, client: string, action: string,
                         key: Option<string>, value: Option<string>)

  function CodePoints(s: string): (t: Text)
    ensures IsScalarText(t) && |t| == |s| && forall i | 0 <= i < |s| :: t[i] == s[i] as int
  {
    seq(|s|, i requires 0 <= i < |s| => s[i] as int)
  }

  function TextValue(s: Option<string>): Scalar {
    match s
    case None => Null
    case Some(text) => Str(CodePoints(text))
  }

  function PayloadValues(previous: Option<string>, e: Event): seq<Scalar> {
    [Str(CodePoints(VERSION)), TextValue(previous), Number(e.id), Str(CodePoints(e.timestamp)),
     Str(CodePoints(e.client)), Str(CodePoints(e.action)), TextValue(e.key), TextValue(e.value)]
  }

  function Payload(previous: Option<string>, e: Event): string {
    EncodeArray(PayloadValues(previous, e))
  }

  lemma PayloadDecodes(p: Option<string>, e: Event)
    ensures DecodeArray(Payload(p, e)) == Some(PayloadValues(p, e))
  {
    DecodeEncodeArray(PayloadValues(p, e));
  }

  /**
   What the hashed text says: a JSON array of the version tag, the predecessor's hash and the id,
   timestamp, client, action, key and value, in this order.
   */
  lemma PayloadSays(p: Option<string>, e: Event)
    ensures VERSION == "mcp-memory-events-v1"
    ensures DecodeArray(Payload(p, e))
         == Some([Str(CodePoints(VERSION)), if p.Some? then Str(CodePoints(p.value)) else Null, Number(e.id),
                  Str(CodePoints(e.timestamp)), Str(CodePoints(e.client)), Str(CodePoints(e.action)),
                  if e.key.Some? then Str(CodePoints(e.key.value)) else Null,
                  if e.value.Some? then Str(CodePoints(e.value.value)) else Null])
  {
    PayloadDecodes(p, e);
  }

  lemma PlainString(s: string)
    requires forall i | 0 <= i < |s| :: ' ' <= s[i] <= '~' && s[i] != '"' && s[i] != '\\'
    ensures EncodeScalar(Str(CodePoints(s))) == "\"" + s + "\""
  {
    PlainTextUnescaped(CodePoints(s));
    assert EscapeText(CodePoints(s)) == s;
  }

  /** An accent, a line break and a character beyond 16 bits. */
  const ODD_TEXT := "\U{E9}\n\U{1F600}"

  lemma OddTextSpelledOut()
    ensures EscapeText(CodePoints(ODD_TEXT)) == "\\u00e9" + ("\\n" + ("\\ud83d" + "\\ude00"))
  {
    var t: Text := CodePoints(ODD_TEXT);
    var last: Text, rest: Text := [0x1F600], [10, 0x1F600];
    assert t == [0xE9, 10, 0x1F600] && t[1..] == rest && rest[1..] == last && last[1..] == [];
    EscapesSpelledOut();
    HexEscapesSpelledOut();
    PairSpelledOut();
    assert EscapeText(last[1..]) == "";
    assert EscapeText(last) == EscapeChar(0x1F600) + "";
    assert EscapeText(rest) == EscapeChar(10) + EscapeText(last);
    assert EscapeText(t) == EscapeChar(0xE9) + EscapeText(rest);
  }

  lemma EncodeFour(a: Scalar, b: Scalar, c: Scalar, d: Scalar, rest: seq<Scalar>)
    requires rest != []
    ensures EncodeItems([a] + ([b] + ([c] + ([d] + rest))))
         == EncodeScalar(a) + ("," + (EncodeScalar(b) + ("," + (EncodeScalar(c) + ("," + (EncodeScalar(d) + ("," + EncodeItems(rest))))))))
  {
    EncodeNext(d, rest);
    EncodeNext(c, [d] + rest);
    EncodeNext(b, [c] + ([d] + rest));
    EncodeNext(a, [b] + ([c] + ([d] + rest)));
  }

  lemma EightInARow(a: Scalar, b: Scalar, c: Scalar, d: Scalar, e: Scalar, f: Scalar, g: Scalar, h: Scalar)
    ensures [a, b, c, d, e, f, g, h] == [a] + ([b] + ([c] + ([d] + ([e] + ([f] + ([g] + [h]))))))
  {
  }

  lemma EncodeLastFour(a: Scalar, b: Scalar, c: Scalar, d: Scalar)
    ensures EncodeItems([a] + ([b] + ([c] + [d])))
         == EncodeScalar(a) + ("," + (EncodeScalar(b) + ("," + (EncodeScalar(c) + ("," + (EncodeScalar(d) + "]"))))))
  {
    EncodeNext(c, [d]);
    EncodeNext(b, [c] + [d]);
    EncodeNext(a, [b] + ([c] + [d]));
  }

  /** The text of any event, piece by piece. */
  lemma PayloadPieces(p: Option<string>, e: Event)
    ensures Payload(p, e)
         == "[" + (EncodeScalar(Str(CodePoints(VERSION))) + ("," + (EncodeScalar(TextValue(p)) + ("," + (Decimal(e.id) + ("," +
            (EncodeScalar(Str(CodePoints(e.timestamp))) + ("," + (EncodeScalar(Str(CodePoints(e.client))) + ("," +
            (EncodeScalar(Str(CodePoints(e.action))) + ("," + (EncodeScalar(TextValue(e.key)) + ("," +
            (EncodeScalar(TextValue(e.value)) + "]")))))))))))))))
  {
    var tag, previous, id, time := Str(CodePoints(VERSION)), TextValue(p), Number(e.id), Str(CodePoints(e.timestamp));
    var client, action, key, value := Str(CodePoints(e.client)), Str(CodePoints(e.action)), TextValue(e.key), TextValue(e.value);
    var back := [client] + ([action] + ([key] + [value]));
    EncodeFour(tag, previous, id, time, back);
    EncodeLastFour(client, action, key, value);
    EightInARow(tag, previous, id, time, client, action, key, value);
  }

  lemma TagSpelledOut()
    ensures EncodeScalar(Str(CodePoints(VERSION))) == "\"" + "mcp-memory-events-v1" + "\""
  {
    PlainString(VERSION);
  }

  lemma FieldsSpelledOut()
    ensures EncodeScalar(Str(CodePoints("ab"))) == "\"" + "ab" + "\""
    ensures EncodeScalar(Str(CodePoints("t0"))) == "\"" + "t0" + "\""
    ensures EncodeScalar(Str(CodePoints("me"))) == "\"" + "me" + "\""
    ensures EncodeScalar(Str(CodePoints("set"))) == "\"" + "set" + "\""
    ensures EncodeScalar(Str(CodePoints("k"))) == "\"" + "k" + "\""
  {
    PlainString("ab");
    PlainString("t0");
    PlainString("me");
    PlainString("set");
    PlainString("k");
  }

  const SOME_EVENT := Event(7, "t0", "me", "set", Some("k"), Some(ODD_TEXT))

  /** One whole text, written out. */
  lemma PayloadSpelledOut()
    ensures Payload(Some("ab"), SOME_EVENT)
         == "[" + ("\"" + "mcp-memory-events-v1" + "\"" + ("," + ("\"" + "ab" + "\"" + ("," + ("7" + ("," +
            ("\"" + "t0" + "\"" + ("," + ("\"" + "me" + "\"" + ("," +
            ("\"" + "set" + "\"" + ("," + ("\"" + "k" + "\"" + ("," +
            ("\"" + ("\\u00e9" + ("\\n" + ("\\ud83d" + "\\ude00"))) + "\"" + "]")))))))))))))))
  {
    TagSpelledOut();
    FieldsSpelledOut();
    OddTextSpelledOut();
    DecimalsSpelledOut();
    PayloadPieces(Some("ab"), SOME_EVENT);
  }

  lemma CodePointsInjective(a: string, b: string)
    requires CodePoints(a) == CodePoints(b)
    ensures a == b
  {
    forall i | 0 <= i < |a|
      ensures a[i] == b[i]
    {
      assert CodePoints(a)[i] == CodePoints(b)[i];
    }
  }

  lemma TextValueInjective(a: Option<string>, b: Option<string>)
    requires TextValue(a) == TextValue(b)
    ensures a == b
  {
    if a.Some? {
      CodePointsInjective(a.value, b.value);
    }
  }

  /** The payload determines the event and the hash it is linked to: nothing runs together. */
  lemma PayloadInjective(p: Option<string>, e: Event, q: Option<string>, f: Event)
    requires Payload(p, e) == Payload(q, f)
    ensures p == q && e == f
  {
    var a, b := PayloadValues(p, e), PayloadValues(q, f);
    DecodeEncodeArray(a);
    DecodeEncodeArray(b);
    assert a == b;
    assert a[1] == b[1] && a[2] == b[2] && a[3] == b[3] && a[4] == b[4] && a[5] == b[5] && a[6] == b[6] && a[7] == b[7];
    TextValueInjective(p, q);
    CodePointsInjective(e.timestamp, f.timestamp);
    CodePointsInjective(e.client, f.client);
    CodePointsInjective(e.action, f.action);
    TextValueInjective(e.key, f.key);
    TextValueInjective(e.value, f.value);
  }
}
