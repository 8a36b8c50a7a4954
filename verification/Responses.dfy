/** The answer to the subscription check, its rendering as flat XML tags, and a reader
    of such tags that recovers every field. */
module Responses {
  import opened Wrappers

  datatype Response = Response(
    status: string,
    serverId: string,
    productName: string,
    regDate: string,
    nextDueDate: string,
    message: string,
    checkToken: string)

  const SHARED_KEY_DATA := "kjfdlskfhiuewhfk947368"
  const XML_HEADER := "<?xml version=\"1.0\" encoding=\"UTF-8\"?>\n"

  // ----- rendering -----

  /** strings.ReplaceAll for a one-character pattern. */
  function ReplaceAll(s: string, c: char, replacement: string): string {
    if s == "" then ""
    else (if s[0] == c then replacement else [s[0]]) + ReplaceAll(s[1..], c, replacement)
  }

  /** Two replacements in sequence: first the ampersands, then the angle brackets. */
  function Escape(value: string): string {
    ReplaceAll(ReplaceAll(value, '&', "&amp;"), '<', "&lt;")
  }

  function Tag(name: string, value: string): string {
    "<" + name + ">" + Escape(value) + "</" + name + ">\n"
  }

  datatype Field = Field(name: string, value: string)

  function RenderFields(fields: seq<Field>): string {
    if fields == [] then "" else Tag(fields[0].name, fields[0].value) + RenderFields(fields[1..])
  }

  /** The tags of a response, in order; the message tag is there only when there is
      a message. md5hex is the hexadecimal MD5 of its argument. */
  function FieldsOf(r: Response, md5hex: string -> string): seq<Field> {
    FirstFields(r)
    + (if r.message != "" then [Field("message", r.message)] else [])
    + [Field("md5hash", md5hex(SHARED_KEY_DATA + r.checkToken))]
  }

  method WriteTag(b: string, name: string, value: string) returns (r: string)
    ensures r == b + Tag(name, value)
  {
    var v := ReplaceAll(value, '&', "&amp;");
    v := ReplaceAll(v, '<', "&lt;");
    assert v == Escape(value);
    r := b + ("<" + name + ">" + v + "</" + name + ">\n");
  }

  /** Appends one more field to a text that already ends with the given fields. */
  method WriteField(b: string, f: Field, ghost start: string, ghost written: seq<Field>) returns (r: string)
    requires b == start + RenderFields(written)
    ensures r == start + RenderFields(written + [f])
  {
    r := WriteTag(b, f.name, f.value);
    RenderSnoc(written, f);
  }

  /** The tags that every response has, before the message. */
  function FirstFields(r: Response): seq<Field> {
    [Field("status", r.status),
     Field("validdirectory", r.serverId),
     Field("productname", r.productName),
     Field("regdate", r.regDate),
     Field("nextduedate", r.nextDueDate)]
  }

  method WriteFirstFields(start: string, r: Response) returns (xml: string)
    ensures xml == start + RenderFields(FirstFields(r))
  {
    xml := start;
    ghost var f: seq<Field> := [];
    xml := WriteField(xml, Field("status", r.status), start, f);
    f := f + [Field("status", r.status)];
    xml := WriteField(xml, Field("validdirectory", r.serverId), start, f);
    f := f + [Field("validdirectory", r.serverId)];
    xml := WriteField(xml, Field("productname", r.productName), start, f);
    f := f + [Field("productname", r.productName)];
    xml := WriteField(xml, Field("regdate", r.regDate), start, f);
    f := f + [Field("regdate", r.regDate)];
    xml := WriteField(xml, Field("nextduedate", r.nextDueDate), start, f);
    f := f + [Field("nextduedate", r.nextDueDate)];
    assert f == FirstFields(r);
  }

  method WriteFields(start: string, r: Response, md5hex: string -> string) returns (xml: string)
    ensures xml == start + RenderFields(FieldsOf(r, md5hex))
  {
    xml := WriteFirstFields(start, r);
    ghost var f := FirstFields(r);
    if r.message != "" {
      xml := WriteField(xml, Field("message", r.message), start, f);
      f := f + [Field("message", r.message)];
    }
    xml := WriteField(xml, Field("md5hash", md5hex(SHARED_KEY_DATA + r.checkToken)), start, f);
    f := f + [Field("md5hash", md5hex(SHARED_KEY_DATA + r.checkToken))];
    assert FirstFields(r) + [] == FirstFields(r);
  }

  method RenderXML(r: Response, md5hex: string -> string) returns (xml: string)
    ensures xml == XML_HEADER + RenderFields(FieldsOf(r, md5hex))
  {
    xml := WriteFields(XML_HEADER, r, md5hex);
  }

  lemma {:induction false} RenderSnoc(fields: seq<Field>, f: Field)
    ensures RenderFields(fields + [f]) == RenderFields(fields) + Tag(f.name, f.value)
  {
    if fields == [] {
      assert [f][1..] == [];
    } else {
      assert (fields + [f])[1..] == fields[1..] + [f];
      RenderSnoc(fields[1..], f);
    }
  }

  // ----- escaping is one injective pass -----

  function EscapeChar(c: char): string {
    if c == '&' then "&amp;" else if c == '<' then "&lt;" else [c]
  }

  function EscapeOnce(s: string): string {
    if s == "" then "" else EscapeChar(s[0]) + EscapeOnce(s[1..])
  }

  lemma {:induction false} ReplaceAllConcat(a: string, b: string, c: char, replacement: string)
    ensures ReplaceAll(a + b, c, replacement) == ReplaceAll(a, c, replacement) + ReplaceAll(b, c, replacement)
  {
    if a == "" {
      assert a + b == b;
    } else {
      assert (a + b)[1..] == a[1..] + b;
      ReplaceAllConcat(a[1..], b, c, replacement);
    }
  }

  lemma {:induction false} ReplaceAllAbsent(s: string, c: char, replacement: string)
    requires c !in s
    ensures ReplaceAll(s, c, replacement) == s
  {
    if s != "" {
      ReplaceAllAbsent(s[1..], c, replacement);
    }
  }

  /** The second replacement never touches what the first one inserted. */
  lemma {:induction false} EscapeIsOnePass(value: string)
    ensures Escape(value) == EscapeOnce(value)
    ensures '<' !in Escape(value)
  {
    if value != "" {
      var head := if value[0] == '&' then "&amp;" else [value[0]];
      var tail := ReplaceAll(value[1..], '&', "&amp;");
      ReplaceAllConcat(head, tail, '<', "&lt;");
      EscapeIsOnePass(value[1..]);
      if value[0] == '<' {
        assert ReplaceAll(head, '<', "&lt;") == "&lt;" + ReplaceAll(head[1..], '<', "&lt;");
        assert ReplaceAll(head, '<', "&lt;") == EscapeChar(value[0]);
      } else {
        ReplaceAllAbsent(head, '<', "&lt;");
      }
    }
  }

  function Unescape(s: string): string
    decreases |s|
  {
    if s == "" then ""
    else if "&amp;" <= s then "&" + Unescape(s[5..])
    else if "&lt;" <= s then "<" + Unescape(s[4..])
    else [s[0]] + Unescape(s[1..])
  }

  lemma {:induction false} UnescapeEscape(value: string)
    ensures Unescape(Escape(value)) == value
  {
    EscapeIsOnePass(value);
    UnescapeEscapeOnce(value);
  }

  lemma {:induction false} UnescapeEscapeOnce(value: string)
    ensures Unescape(EscapeOnce(value)) == value
  {
    if value != "" {
      UnescapeEscapeOnce(value[1..]);
      var e := EscapeOnce(value);
      var rest := EscapeOnce(value[1..]);
      if value[0] == '&' {
        assert e[5..] == rest && "&amp;" <= e;
      } else if value[0] == '<' {
        assert e[4..] == rest && "&lt;" <= e;
        assert e[1] == 'l';
      } else {
        assert e[1..] == rest && e[0] == value[0];
      }
    }
  }

  // ----- a flat tag reader -----

  /** The number of characters before the first c. */
  function Before(s: string, c: char): (n: nat)
    ensures n <= |s|
    ensures n < |s| ==> s[n] == c
  {
    if s == "" || s[0] == c then 0 else 1 + Before(s[1..], c)
  }

  lemma {:induction false} BeforeFirst(a: string, c: char, b: string)
    requires c !in a
    ensures Before(a + [c] + b, c) == |a|
  {
    var s := a + [c] + b;
    if a != "" {
      assert s[1..] == a[1..] + [c] + b;
      BeforeFirst(a[1..], c, b);
    }
  }

  /** Reads "<name>". */
  function ReadOpening(s: string): (r: Option<(string, string)>)
    ensures r.Some? ==> |r.value.1| < |s|
  {
    if s == "" || s[0] != '<' then None
    else
      var nameEnd := Before(s[1..], '>');
      if nameEnd == |s| - 1 then None else Some((s[1..][..nameEnd], s[1..][nameEnd + 1..]))
  }

  /** Reads "value</name>" and the end of the line; the value ends at the first '<'. */
  function ReadValue(name: string, s: string): (r: Option<(string, string)>)
    ensures r.Some? ==> |r.value.1| <= |s|
  {
    var valueEnd := Before(s, '<');
    var close := "</" + name + ">\n";
    if close <= s[valueEnd..] then Some((Unescape(s[..valueEnd]), s[valueEnd..][|close|..])) else None
  }

  /** Reads <name>value</name> lines until the text ends; None when it is not of
      that shape. */
  function ReadTags(s: string): Option<seq<Field>>
    decreases |s|
  {
    if s == "" then Some([])
    else
      match ReadOpening(s)
      case None => None
      case Some((name, afterName)) =>
        match ReadValue(name, afterName)
        case None => None
        case Some((value, afterTag)) =>
          match ReadTags(afterTag)
          case None => None
          case Some(rest) => Some([Field(name, value)] + rest)
  }

  function ReadXML(xml: string): Option<seq<Field>> {
    if XML_HEADER <= xml then ReadTags(xml[|XML_HEADER|..]) else None
  }

  lemma ReadPrintedOpening(name: string, rest: string)
    requires '>' !in name
    ensures ReadOpening("<" + name + ">" + rest) == Some((name, rest))
  {
    var s := "<" + name + ">" + rest;
    assert s[1..] == name + ['>'] + rest;
    BeforeFirst(name, '>', rest);
    assert s[1..][..|name|] == name;
    assert s[1..][|name| + 1..] == rest;
  }

  lemma ReadPrintedValue(name: string, value: string, rest: string)
    ensures ReadValue(name, Escape(value) + ("</" + name + ">\n") + rest) == Some((value, rest))
  {
    var close := "</" + name + ">\n";
    var v := Escape(value);
    var s := v + close + rest;
    EscapeIsOnePass(value);
    UnescapeEscape(value);
    assert s == v + ['<'] + (close[1..] + rest);
    BeforeFirst(v, '<', close[1..] + rest);
    assert s[..|v|] == v;
    assert s[|v|..] == close + rest;
    assert (close + rest)[|close|..] == rest;
  }

  /** The reader takes one rendered tag off the front. */
  lemma ReadOneTag(f: Field, rest: string)
    requires '>' !in f.name
    ensures ReadTags(Tag(f.name, f.value) + rest) ==
            match ReadTags(rest) case None => None case Some(fields) => Some([f] + fields)
  {
    var afterName := Escape(f.value) + ("</" + f.name + ">\n") + rest;
    assert Tag(f.name, f.value) + rest == "<" + f.name + ">" + afterName;
    ReadPrintedOpening(f.name, afterName);
    ReadPrintedValue(f.name, f.value, rest);
  }

  lemma {:induction false} ReadRenderedTags(fields: seq<Field>)
    requires forall i | 0 <= i < |fields| :: '>' !in fields[i].name
    ensures ReadTags(RenderFields(fields)) == Some(fields)
  {
    if fields != [] {
      ReadRenderedTags(fields[1..]);
      ReadOneTag(fields[0], RenderFields(fields[1..]));
      assert fields == [fields[0]] + fields[1..];
    }
  }

  lemma TagNamesArePlain(r: Response, md5hex: string -> string)
    ensures forall i | 0 <= i < |FieldsOf(r, md5hex)| :: '>' !in FieldsOf(r, md5hex)[i].name
  {
  }

  lemma ReadWithHeader(header: string, fields: seq<Field>)
    requires forall i | 0 <= i < |fields| :: '>' !in fields[i].name
    ensures header <= header + RenderFields(fields)
    ensures ReadTags((header + RenderFields(fields))[|header|..]) == Some(fields)
  {
    assert (header + RenderFields(fields))[|header|..] == RenderFields(fields);
    ReadRenderedTags(fields);
  }

  /** What the reader recovers from a rendered response: every field, and the md5
      of the challenge. */
  lemma RenderedResponseIsDecodable(r: Response, md5hex: string -> string)
    ensures ReadXML(XML_HEADER + RenderFields(FieldsOf(r, md5hex))) == Some(FieldsOf(r, md5hex))
  {
    TagNamesArePlain(r, md5hex);
    ReadWithHeader(XML_HEADER, FieldsOf(r, md5hex));
  }

  /** Two responses render alike only when they agree on every field and on the md5. */
  lemma RenderingIsInjective(r: Response, q: Response, md5hex: string -> string)
    requires RenderFields(FieldsOf(r, md5hex)) == RenderFields(FieldsOf(q, md5hex))
    ensures r.(checkToken := "") == q.(checkToken := "")
    ensures md5hex(SHARED_KEY_DATA + r.checkToken) == md5hex(SHARED_KEY_DATA + q.checkToken)
  {
    RenderedResponseIsDecodable(r, md5hex);
    RenderedResponseIsDecodable(q, md5hex);
    var a, b := FieldsOf(r, md5hex), FieldsOf(q, md5hex);
    assert a == b;
    assert a[0] == b[0] && a[1] == b[1] && a[2] == b[2] && a[3] == b[3] && a[4] == b[4] && a[5] == b[5];
    assert a[|a| - 1] == b[|b| - 1];
  }
}
