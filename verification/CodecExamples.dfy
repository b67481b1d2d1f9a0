/** The codecs on concrete values: the exact characters and bytes, and what the readers accept and refuse. */
module CodecExamples {
  import opened Wrappers
  import opened Utf8
  import B = Base64Url
  import J = Json
  import D = Decimal
  import opened IngestionModels
  import opened IngestionWork
  import opened WorkPayloadCodec
  import opened RssCursor
  import opened Sorting
  import opened Text
  import opened TextSorting
  import FilingFixture
  import MetadataCodec

  /** One character of each width. */
  lemma Utf8Widths()
    ensures Encode("A") == [0x41] && Encode("\U{E9}") == [0xC3, 0xA9]
    ensures Encode("\U{20AC}") == [0xE2, 0x82, 0xAC] && Encode("\U{1F600}") == [0xF0, 0x9F, 0x98, 0x80]
  {
  }

  /** An overlong form, a surrogate, a cut character and a number past the last character. */
  lemma Utf8Refused()
    ensures Decode([0xC1, 0x81]) == None && Decode([0xED, 0xA0, 0x80]) == None
    ensures Decode([0xE2, 0x82]) == None && Decode([0xF4, 0x90, 0x80, 0x80]) == None
  {
  }

  /** Capital letters, small letters and digits in their order, then the two url-safe symbols. */
  lemma Base64Alphabet(v: nat)
    requires v < 61
    ensures v !in {25, 51} ==> B.Symbol(v + 1) as int == B.Symbol(v) as int + 1
    ensures B.Symbol(0) == 'A' && B.Symbol(26) == 'a' && B.Symbol(52) == '0'
    ensures B.Symbol(62) == '-' && B.Symbol(63) == '_'
    ensures B.SymbolValue('+') == B.SymbolValue('-') == Some(62)
    ensures B.SymbolValue('/') == B.SymbolValue('_') == Some(63)
  {
  }

  /** A vector of section 10 of RFC 4648, and three bytes that make the last two symbols. */
  lemma Base64Groups()
    ensures B.EncodeGroup(0x66, 0x6F, 0x6F) == "Zm9v"
    ensures B.Encode([0xFB, 0xFF, 0xBF]) == "-_-_" && B.Encode([0x66]) == "Zg==" && B.Encode([0x66, 0x6F]) == "Zm8="
  {
  }

  /** The characters that stripping and splitting remove: Python's white space, character by character. */
  lemma SpaceCharacters(c: char)
    ensures IsSpace(c)
       <==> c as int in {0x09, 0x0A, 0x0B, 0x0C, 0x0D, 0x1C, 0x1D, 0x1E, 0x1F, 0x20, 0x85, 0xA0, 0x1680, 0x2000, 0x2001,
                         0x2002, 0x2003, 0x2004, 0x2005, 0x2006, 0x2007, 0x2008, 0x2009, 0x200A, 0x2028, 0x2029, 0x202F,
                         0x205F, 0x3000}
  {
  }

  /** What a character of a string is written as. */
  lemma JsonEscapes()
    ensures J.Escape('"') == "\\\"" && J.Escape('\\') == "\\\\" && J.Escape('/') == "/"
    ensures J.Escape('\n') == "\\n" && J.Escape('\r') == "\\r" && J.Escape('\t') == "\\t"
    ensures J.Escape('\U{8}') == "\\b" && J.Escape('\U{C}') == "\\f"
    ensures J.Escape('\U{1F}') == "\\u001f" && J.Escape('\U{E9}') == "\U{E9}"
  {
  }

  /** No space between the parts of a list or of an object. */
  lemma JsonSeparators(a: J.Value, b: J.Value, k: string, l: string)
    ensures J.Write(J.Arr([a, b])) == "[" + (J.Write(a) + ("," + (J.Write(b) + "]")))
    ensures J.Write(J.Obj([(k, a), (l, b)]))
         == "{" + (J.Quote(k) + ":" + J.Write(a) + ("," + (J.Quote(l) + ":" + J.Write(b) + "}")))
    ensures J.Write(J.Null) == "null" && J.Write(J.Bool(true)) == "true" && J.Write(J.Bool(false)) == "false"
  {
    hide J.Quote;
    assert [a, b][1..] == [b] && [(k, a), (l, b)][1..] == [(l, b)];
    assert J.WriteItems([b]) == J.Write(b) + "]";
    assert J.WriteItems([a, b]) == J.Write(a) + ("," + J.WriteItems([b]));
    assert J.WriteMembers([(l, b)]) == J.Quote(l) + ":" + J.Write(b) + "}";
    assert J.WriteMembers([(k, a), (l, b)]) == J.Quote(k) + ":" + J.Write(a) + ("," + J.WriteMembers([(l, b)]));
  }

  // ---- objects ----

  /** Members with the texts of their values, without space between them. */
  function ObjectText(members: seq<(string, string)>): string {
    "{" + Join(seq(|members|, i requires 0 <= i < |members| => J.Quote(members[i].0) + ":" + members[i].1), ",") + "}"
  }

  function MemberTexts(members: seq<(string, J.Value)>): seq<string> {
    seq(|members|, i requires 0 <= i < |members| => J.Quote(members[i].0) + ":" + J.Write(members[i].1))
  }

  lemma {:induction false} MembersJoined(members: seq<(string, J.Value)>)
    requires members != []
    ensures J.WriteMembers(members) == Join(MemberTexts(members), ",") + "}"
  {
    hide J.Quote, J.Write;
    var (first, rest) := (MemberTexts(members)[0], members[1..]);
    if rest != [] {
      MembersJoined(rest);
      assert MemberTexts(members)[1..] == MemberTexts(rest);
      Behind(first, Join(MemberTexts(rest), ","));
    }
  }

  lemma Behind(first: string, rest: string)
    ensures first + ("," + (rest + "}")) == first + "," + rest + "}"
  {
  }

  lemma ObjectWritten(members: seq<(string, J.Value)>, texts: seq<(string, string)>)
    requires members != [] && |texts| == |members|
    requires forall i :: 0 <= i < |members| ==> texts[i] == (members[i].0, J.Write(members[i].1))
    ensures J.Write(J.Obj(members)) == ObjectText(texts)
  {
    hide J.Quote, J.WriteMembers, Join;
    MembersJoined(members);
    var all := seq(|texts|, i requires 0 <= i < |texts| => J.Quote(texts[i].0) + ":" + texts[i].1);
    assert all == MemberTexts(members);
    assert J.Write(J.Obj(members)) == "{" + J.WriteMembers(members);
    Braces(Join(all, ","));
  }

  lemma Braces(s: string)
    ensures "{" + (s + "}") == "{" + s + "}"
  {
  }

  /** The text of each payload: its keys in order, a checkpoint nested, signals in order. */
  lemma PayloadFormats(p: WorkPayload)
    ensures p.DocumentPayload? ==> EncodePayload(p) == ObjectText([("document_id", J.Quote(p.rawDocumentId))])
    ensures p.ResearchPayload? ==>
              EncodePayload(p) == ObjectText([
                ("entity_id", J.Quote(p.entityId)),
                ("signal_ids", J.Write(J.Arr(Strings(SortBy(BY_TEXT, p.signalIds))))),
                ("topic_key", J.Quote(p.topicKey))])
    ensures p.CollectionPayload? ==>
              EncodePayload(p) == ObjectText([
                ("checkpoint", if p.checkpoint.None? then "null" else J.Write(CheckpointJson(p.checkpoint.value))),
                ("connector_name", J.Quote(p.connectorName)),
                ("connector_version", J.Quote(p.connectorVersion)),
                ("limit", D.FromInt(p.limit)),
                ("source_id", J.Quote(p.sourceId))])
  {
    hide J.Quote, ObjectText, J.WriteMembers, J.WriteItems, CheckpointJson, Strings, D.FromInt;
    match p
    case DocumentPayload(d) => ObjectWritten(PayloadJson(p).members, [("document_id", J.Quote(d))]);
    case ResearchPayload(e, s, t) =>
      ObjectWritten(PayloadJson(p).members, [
        ("entity_id", J.Quote(e)), ("signal_ids", J.Write(J.Arr(Strings(SortBy(BY_TEXT, s))))),
        ("topic_key", J.Quote(t))]);
    case CollectionPayload(x, n, v, c, l) =>
      ObjectWritten(PayloadJson(p).members, [
        ("checkpoint", if c.None? then "null" else J.Write(CheckpointJson(c.value))), ("connector_name", J.Quote(n)),
        ("connector_version", J.Quote(v)), ("limit", D.FromInt(l)), ("source_id", J.Quote(x))]);
  }

  /** The text of a checkpoint; a field that is missing is null. */
  lemma CheckpointFormat(c: IngestionCheckpoint)
    ensures J.Write(CheckpointJson(c)) == ObjectText([
      ("connector_version", J.Quote(c.connectorVersion)),
      ("cursor", OptionalText(c.cursor)),
      ("last_success_at", OptionalText(c.lastSuccessAt)),
      ("revision", D.FromInt(c.revision)),
      ("schema_version", J.Quote(c.schemaVersion)),
      ("source_id", J.Quote(c.sourceId)),
      ("watermark", OptionalText(c.watermark))])
  {
    hide J.Quote, ObjectText, J.WriteMembers, D.FromInt;
    OptionalWritten(c.cursor);
    OptionalWritten(c.lastSuccessAt);
    OptionalWritten(c.watermark);
    ObjectWritten(CheckpointJson(c).members, [
      ("connector_version", J.Quote(c.connectorVersion)), ("cursor", OptionalText(c.cursor)),
      ("last_success_at", OptionalText(c.lastSuccessAt)), ("revision", D.FromInt(c.revision)),
      ("schema_version", J.Quote(c.schemaVersion)), ("source_id", J.Quote(c.sourceId)),
      ("watermark", OptionalText(c.watermark))]);
  }

  function OptionalText(s: Option<string>): string {
    if s.None? then "null" else J.Quote(s.value)
  }

  lemma OptionalWritten(s: Option<string>)
    ensures J.Write(OptionalString(s)) == OptionalText(s)
  {
  }

  /** Metadata is a list of pairs. */
  lemma MetadataFormat(k: string, v: string)
    ensures MetadataCodec.Encode([(k, v)]) == "[[" + J.Quote(k) + "," + J.Quote(v) + "]]"
  {
    hide J.Quote;
    assert SortBy(BY_PAIR, [(k, v)]) == [(k, v)] by {
      assert [(k, v)][1..] == [];
    }
    var pair := J.Arr([J.Str(k), J.Str(v)]);
    assert MetadataCodec.PairsJson([(k, v)]) == J.Arr([pair]);
    JsonSeparators(J.Str(k), J.Str(v), "", "");
    assert J.WriteItems([pair]) == J.Write(pair) + "]";
    Nested(J.Quote(k), J.Quote(v));
  }

  lemma Nested(a: string, b: string)
    ensures "[" + (("[" + (a + ("," + (b + "]")))) + "]") == "[[" + a + "," + b + "]]"
  {
  }

  /** The cursors of the two connectors. */
  lemma CursorFormats(publishedAt: string, externalId: string)
    ensures var json := "[" + (J.Quote(publishedAt) + ("," + (J.Quote(externalId) + "]")));
            EncodeCursor((publishedAt, externalId)) == "rss-v1:" + B.Unpad(B.Encode(Encode(json)))
    ensures FilingFixture.CursorAt(12) == "filing-fixture-v1:12"
  {
    hide J.Quote, J.Write, B.Unpad, B.Encode, Encode;
    JsonSeparators(J.Str(publishedAt), J.Str(externalId), "", "");
    TextWritten(publishedAt);
    TextWritten(externalId);
    FixtureCursor();
  }

  lemma TextWritten(s: string)
    ensures J.Write(J.Str(s)) == J.Quote(s)
  {
  }

  lemma FixtureCursor()
    ensures FilingFixture.CursorAt(12) == "filing-fixture-v1:12"
  {
    assert FilingFixture.Decimal.FromInt(12) == "12";
  }

  /** Two escapes make one character past the first plane, and half of a pair is refused. */
  lemma SurrogatePair()
    ensures J.ReadUnicodeEscape("d83d\\ude00") == Some(('\U{1F600}', ""))
    ensures J.ReadUnicodeEscape("d83d") == None && J.ReadUnicodeEscape("ude00") == None
  {
  }
}
