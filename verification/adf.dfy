/**
  The Atlassian Document Format envelope in which the create tool wraps the plain
  description (app/tools/jira.py:109-120): a `doc` of version 1 holding one
  paragraph that holds one text node. `DocumentText` reads such a document back.
*/
module Adf {
  import opened Wrappers
  import opened Json

  function TextNode(text: string): Json {
    JObject([("type", JString("text")), ("text", JString(text))])
  }

  function ParagraphNode(node: Json): Json {
    JObject([("type", JString("paragraph")), ("content", JArray([node]))])
  }

  /** The description as the create payload sends it. */
  function Document(text: string): Json {
    JObject([("type", JString("doc")), ("version", JNumber(1)), ("content", JArray([ParagraphNode(TextNode(text))]))])
  }

  /** The text of a text node `{"type": "text", "text": t}` and nothing else. */
  function ReadTextNode(j: Json): Option<string> {
    if j.JObject? && Keys(j.members) == ["type", "text"]
       && Get(j.members, "type") == Some(JString("text"))
       && Get(j.members, "text").Some? && Get(j.members, "text").value.JString?
    then Some(Get(j.members, "text").value.s)
    else None
  }

  /** The text of a paragraph holding exactly one text node. */
  function ReadParagraph(j: Json): Option<string> {
    if j.JObject? && Keys(j.members) == ["type", "content"]
       && Get(j.members, "type") == Some(JString("paragraph"))
       && Get(j.members, "content").Some? && Get(j.members, "content").value.JArray?
       && |Get(j.members, "content").value.items| == 1
    then ReadTextNode(Get(j.members, "content").value.items[0])
    else None
  }

  /** The text of a version-1 document holding exactly one such paragraph. */
  function DocumentText(d: Json): Option<string> {
    if d.JObject? && Keys(d.members) == ["type", "version", "content"]
       && Get(d.members, "type") == Some(JString("doc"))
       && Get(d.members, "version") == Some(JNumber(1))
       && Get(d.members, "content").Some? && Get(d.members, "content").value.JArray?
       && |Get(d.members, "content").value.items| == 1
    then ReadParagraph(Get(d.members, "content").value.items[0])
    else None
  }

  /** Reading back the envelope yields the description it was built from. */
  lemma DocumentRoundTrip(text: string)
    ensures DocumentText(Document(text)) == Some(text)
  {
    var t := TextNode(text);
    assert Keys(t.members) == ["type", "text"];
    GetEach(t.members);
    assert t.members[0] == ("type", JString("text")) && t.members[1] == ("text", JString(text));
    assert Get(t.members, "type") == Some(JString("text"));
    assert Get(t.members, "text") == Some(JString(text));
    assert ReadTextNode(t) == Some(text);
    var p := ParagraphNode(t);
    assert Keys(p.members) == ["type", "content"];
    GetEach(p.members);
    assert p.members[0] == ("type", JString("paragraph")) && p.members[1] == ("content", JArray([t]));
    assert Get(p.members, "type") == Some(JString("paragraph"));
    assert Get(p.members, "content") == Some(JArray([t]));
    assert ReadParagraph(p) == Some(text);
    DocumentLookups(text);
  }

  /** The path `content[0].text` leads from a paragraph to its text. */
  lemma ParagraphTextPath(text: string)
    ensures Navigate(ParagraphNode(TextNode(text)), [Key("content"), At(0), Key("text")]) == Some(JString(text))
  {
    var node := TextNode(text);
    var para := ParagraphNode(node);
    assert Keys(para.members) == ["type", "content"];
    assert Keys(node.members) == ["type", "text"];
    GetEach(para.members);
    GetEach(node.members);
    NavigateKey(para.members, "content", JArray([node]), [At(0), Key("text")]);
    NavigateAt([node], 0, [Key("text")]);
    NavigateKey(node.members, "text", JString(text), []);
    assert [Key("content")] + [At(0), Key("text")] == [Key("content"), At(0), Key("text")];
    assert [At(0)] + [Key("text")] == [At(0), Key("text")];
    assert [Key("text")] + [] == [Key("text")];
  }

  /** The path `content[0].content[0].text` leads from the envelope to the text. */
  lemma DocumentTextPath(text: string)
    ensures Navigate(Document(text), [Key("content"), At(0), Key("content"), At(0), Key("text")]) == Some(JString(text))
  {
    var doc := Document(text);
    var para := ParagraphNode(TextNode(text));
    var rest := [Key("content"), At(0), Key("text")];
    DocumentLookups(text);
    NavigateKey(doc.members, "content", JArray([para]), [At(0)] + rest);
    NavigateAt([para], 0, rest);
    ParagraphTextPath(text);
    assert [Key("content")] + ([At(0)] + rest) == [Key("content"), At(0), Key("content"), At(0), Key("text")];
  }

  /** Two-key objects are fixed by their key order and their two values. */
  lemma TwoMembers(ms: seq<(string, Json)>, k1: string, v1: Json, k2: string, v2: Json)
    requires Keys(ms) == [k1, k2] && k1 != k2
    requires Get(ms, k1) == Some(v1) && Get(ms, k2) == Some(v2)
    ensures ms == [(k1, v1), (k2, v2)]
  {
    assert Keys(ms)[0] == ms[0].0 && Keys(ms)[1] == ms[1].0;
    GetEach(ms);
  }

  /** A text node is read only from the exact node. */
  lemma TextNodeExact(t: Json, text: string)
    requires ReadTextNode(t) == Some(text)
    ensures t == TextNode(text)
  {
    TwoMembers(t.members, "type", JString("text"), "text", JString(text));
  }

  /** A paragraph is read only from the exact paragraph around the exact node. */
  lemma ParagraphExact(p: Json, text: string)
    requires ReadParagraph(p) == Some(text)
    ensures p == ParagraphNode(TextNode(text))
  {
    var items := Get(p.members, "content").value.items;
    TextNodeExact(items[0], text);
    assert items == [TextNode(text)];
    TwoMembers(p.members, "type", JString("paragraph"), "content", JArray(items));
  }

  /** The members of the envelope, looked up by key. */
  lemma DocumentLookups(text: string)
    ensures var ms := Document(text).members;
            && Keys(ms) == ["type", "version", "content"]
            && Get(ms, "type") == Some(JString("doc"))
            && Get(ms, "version") == Some(JNumber(1))
            && Get(ms, "content") == Some(JArray([ParagraphNode(TextNode(text))]))
  {
    var ms := Document(text).members;
    assert Keys(ms) == ["type", "version", "content"];
    GetEach(ms);
    assert ms[0].0 == "type" && ms[1].0 == "version" && ms[2].0 == "content";
  }

  /** Three-key objects are fixed by their key order and their three values. */
  lemma ThreeMembers(ms: seq<(string, Json)>, k1: string, v1: Json, k2: string, v2: Json, k3: string, v3: Json)
    requires Keys(ms) == [k1, k2, k3] && k1 != k2 && k1 != k3 && k2 != k3
    requires Get(ms, k1) == Some(v1) && Get(ms, k2) == Some(v2) && Get(ms, k3) == Some(v3)
    ensures ms == [(k1, v1), (k2, v2), (k3, v3)]
  {
    assert Keys(ms)[0] == ms[0].0 && Keys(ms)[1] == ms[1].0 && Keys(ms)[2] == ms[2].0;
    GetEach(ms);
  }

  /** Reading succeeds only on the exact envelope: the reader is the writer's inverse. */
  lemma DocumentTextExact(d: Json, text: string)
    requires DocumentText(d) == Some(text)
    ensures d == Document(text)
  {
    var items := Get(d.members, "content").value.items;
    ParagraphExact(items[0], text);
    assert items == [ParagraphNode(TextNode(text))];
    ThreeMembers(d.members, "type", JString("doc"), "version", JNumber(1), "content", JArray(items));
  }
}
