/** Singer.io record messages (lib/SingerIO.js). */
module SingerIO {
  import opened Wrappers
  import opened Json

  /** The object `{type: "RECORD", stream, record}`, members in that order. */
  function RecordMessage(stream: string, record: Json): (m: Json)
    ensures m.Obj? && |m.members| == 3
    ensures m.members[0] == Member("type", Str("RECORD"))
    ensures m.members[1] == Member("stream", Str(stream))
    ensures m.members[2] == Member("record", record)
  {
    Obj([Member("type", Str("RECORD")), Member("stream", Str(stream)), Member("record", record)])
  }

  /**
   * SingerIO.formatRecord: the JSON text of the record message. It reads back as
   * that message and holds no character below U+0020, in particular no line
   * feed, so a line feed after it ends the line unambiguously.
   */
  function FormatRecord(stream: string, record: Json): (r: string)
    ensures Parse(r) == Some(RecordMessage(stream, record))
    ensures Printable(r)
  {
    RoundTrip(RecordMessage(stream, record));
    StringifyPrintable(RecordMessage(stream, record));
    Stringify(RecordMessage(stream, record))
  }

  /** The text spells out the three members in fixed order: the type, the
      quoted stream name, then the record's own text. */
  lemma FormatRecordText(stream: string, record: Json)
    ensures FormatRecord(stream, record) ==
      "{\"type\":\"RECORD\",\"stream\":" + Quote(stream) + ",\"record\":" + Stringify(record) + "}"
  {
    RecordMessageText(stream, record);
  }

  lemma QuotePlain(s: string)
    requires forall i :: 0 <= i < |s| ==> PlainChar(s[i])
    ensures Quote(s) == "\"" + s + "\""
  {
    EscapePlainChars(s);
  }

  /** A member whose key needs no escaping. */
  lemma PlainKeyMember(key: string, value: Json)
    requires forall i :: 0 <= i < |key| ==> PlainChar(key[i])
    ensures MemberText(Member(key, value)) == "\"" + key + "\":" + Stringify(value)
  {
    var v := Stringify(value);
    assert MemberText(Member(key, value)) == Quote(key) + ":" + v;
    QuotePlain(key);
    assert Quote(key) + ":" == "\"" + key + "\":";
  }

  /* The literal pieces below are joined in lemmas of their own: stated over
     plain variables or fixed literals, each is cheap, while the same step
     inside a proof that also sees Stringify's definition is not. */

  lemma RecordPrefixText()
    ensures "{" + ("\"" + "type" + "\":" + ("\"" + "RECORD" + "\"")) + "," + ("\"" + "stream" + "\":") ==
      "{\"type\":\"RECORD\",\"stream\":"
  {
  }

  lemma RecordInfixText()
    ensures "," + ("\"" + "record" + "\":") == ",\"record\":"
  {
  }

  lemma Regroup(a: string, b: string, c: string, d: string, q: string, e: string, f: string, v: string, g: string)
    ensures a + (b + c + ((d + q) + c + (f + v))) + g == (a + b + c + d) + q + (c + f) + v + g
  {
  }

  /** The literal parts of a record message's text, put together. */
  lemma JoinRecordText(q: string, v: string)
    ensures "{" + (("\"" + "type" + "\":" + ("\"" + "RECORD" + "\"")) + "," +
                   (("\"" + "stream" + "\":" + q) + "," + ("\"" + "record" + "\":" + v))) + "}" ==
      "{\"type\":\"RECORD\",\"stream\":" + q + ",\"record\":" + v + "}"
  {
    var t0, k1, k2 := "\"" + "type" + "\":" + ("\"" + "RECORD" + "\""), "\"" + "stream" + "\":", "\"" + "record" + "\":";
    Regroup("{", t0, ",", k1, q, ",", k2, v, "}");
    RecordPrefixText();
    RecordInfixText();
  }

  lemma TwoMembers(ms: seq<Member>)
    requires |ms| == 2
    ensures StringifyMembers(ms) == MemberText(ms[0]) + "," + MemberText(ms[1])
  {
    assert ms[1..] == [ms[1]];
  }

  lemma ThreeMembers(ms: seq<Member>)
    requires |ms| == 3
    ensures StringifyMembers(ms) == MemberText(ms[0]) + "," + (MemberText(ms[1]) + "," + MemberText(ms[2]))
  {
    TwoMembers(ms[1..]);
    assert ms[1..][0] == ms[1] && ms[1..][1] == ms[2];
  }

  lemma ObjectOfThree(m0: Member, m1: Member, m2: Member)
    ensures Stringify(Obj([m0, m1, m2])) == "{" + (MemberText(m0) + "," + (MemberText(m1) + "," + MemberText(m2))) + "}"
  {
    ThreeMembers([m0, m1, m2]);
  }

  lemma PlainStringMember(key: string, v: string)
    requires forall i :: 0 <= i < |key| ==> PlainChar(key[i])
    requires forall i :: 0 <= i < |v| ==> PlainChar(v[i])
    ensures MemberText(Member(key, Str(v))) == "\"" + key + "\":" + ("\"" + v + "\"")
  {
    PlainKeyMember(key, Str(v));
    QuotePlain(v);
  }

  /** The text of a three-member object whose keys and first value need no escaping. */
  lemma EnvelopeText(k0: string, v0: string, k1: string, s1: string, k2: string, v2: Json)
    requires forall i :: 0 <= i < |k0| ==> PlainChar(k0[i])
    requires forall i :: 0 <= i < |v0| ==> PlainChar(v0[i])
    requires forall i :: 0 <= i < |k1| ==> PlainChar(k1[i])
    requires forall i :: 0 <= i < |k2| ==> PlainChar(k2[i])
    ensures Stringify(Obj([Member(k0, Str(v0)), Member(k1, Str(s1)), Member(k2, v2)])) ==
      "{" + (("\"" + k0 + "\":" + ("\"" + v0 + "\"")) + "," +
             (("\"" + k1 + "\":" + Quote(s1)) + "," + ("\"" + k2 + "\":" + Stringify(v2)))) + "}"
  {
    ObjectOfThree(Member(k0, Str(v0)), Member(k1, Str(s1)), Member(k2, v2));
    PlainStringMember(k0, v0);
    PlainKeyMember(k1, Str(s1));
    PlainKeyMember(k2, v2);
  }

  lemma RecordMessageText(stream: string, record: Json)
    ensures Stringify(RecordMessage(stream, record)) ==
      "{\"type\":\"RECORD\",\"stream\":" + Quote(stream) + ",\"record\":" + Stringify(record) + "}"
  {
    EnvelopeText("type", "RECORD", "stream", stream, "record", record);
    JoinRecordText(Quote(stream), Stringify(record));
  }

  /** The stream name and record a record message's text carries, if it is one. */
  function DecodeRecord(text: string): (r: Option<(string, Json)>) {
    match Parse(text)
    case Some(Obj(ms)) =>
      if |ms| == 3 && ms[0] == Member("type", Str("RECORD"))
         && ms[1].key == "stream" && ms[1].value.Str? && ms[2].key == "record"
      then Some((ms[1].value.s, ms[2].value))
      else None
    case _ => None
  }

  lemma DecodeFormatRecord(stream: string, record: Json)
    ensures DecodeRecord(FormatRecord(stream, record)) == Some((stream, record))
  {
  }

  /** Different stream names or records never format to the same text. */
  lemma FormatRecordInjective(s1: string, r1: Json, s2: string, r2: Json)
    requires FormatRecord(s1, r1) == FormatRecord(s2, r2)
    ensures s1 == s2 && r1 == r2
  {
    DecodeFormatRecord(s1, r1);
    DecodeFormatRecord(s2, r2);
  }

  lemma JoinPlainText(stream: string, record: string)
    ensures "{\"type\":\"RECORD\",\"stream\":" + ("\"" + stream + "\"") + ",\"record\":" + ("\"" + record + "\"") + "}" ==
      "{\"type\":\"RECORD\",\"stream\":\"" + stream + "\",\"record\":\"" + record + "\"}"
  {
  }

  /** With a string record and nothing to escape, the text is the two strings in a fixed frame. */
  lemma FormatPlainStrings(stream: string, record: string)
    requires forall i :: 0 <= i < |stream| ==> PlainChar(stream[i])
    requires forall i :: 0 <= i < |record| ==> PlainChar(record[i])
    ensures FormatRecord(stream, Str(record)) ==
      "{\"type\":\"RECORD\",\"stream\":\"" + stream + "\",\"record\":\"" + record + "\"}"
  {
    FormatRecordText(stream, Str(record));
    QuotePlain(stream);
    QuotePlain(record);
    assert Stringify(Str(record)) == Quote(record);
    JoinPlainText(stream, record);
  }

  lemma JoinExampleText(stream: string, record: string)
    requires stream == "<stream>" && record == "<record>"
    ensures "{\"type\":\"RECORD\",\"stream\":\"" + stream + "\",\"record\":\"" + record + "\"}" ==
      "{\"type\":\"RECORD\",\"stream\":\"<stream>\",\"record\":\"<record>\"}"
  {
  }

  /** The record message the formatter's test expects for plain strings. */
  lemma FormatRecordExample()
    ensures FormatRecord("<stream>", Str("<record>")) ==
      "{\"type\":\"RECORD\",\"stream\":\"<stream>\",\"record\":\"<record>\"}"
  {
    FormatPlainStrings("<stream>", "<record>");
    JoinExampleText("<stream>", "<record>");
  }
}
