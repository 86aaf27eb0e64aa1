/**
 What the field scanner computes on a document.

 A document is a tree of elements, text, CDATA, comments and processing
 instructions (sections 2.5, 2.6, 2.7 and 3.1 of XML 1.0).  `Print` writes it
 out.  The scan of a printed tree is the evaluation of the tree, and the
 evaluation succeeds exactly on the trees `Acceptable` describes.
 */
module XmlDocument {
  import opened XmlScanner

  datatype Attribute = Attribute(space: string, name: string, quote: char, value: string)

  datatype Node =
    | Text(text: string)
    | CData(text: string)
    | Comment(text: string)
    | Instruction(text: string)
    | Element(name: string, attributes: seq<Attribute>, pad: string, children: seq<Node>, closePad: string)
    | Empty(name: string, attributes: seq<Attribute>, pad: string, closePad: string)

  // ---------------------------------------------------------------------
  // Printing
  // ---------------------------------------------------------------------

  predicate Plain(s: string) {
    forall i :: 0 <= i < |s| ==> s[i] != '\'' && s[i] != '"' && s[i] != '>'
  }

  predicate NameOk(name: string) {
    && name != "" && name[0] != '!' && name[0] != '?' && Plain(name)
    && forall i :: 0 <= i < |name| ==> !IsSpace(name[i]) && name[i] != '/' && name[i] != '<'
  }

  predicate AttributeOk(a: Attribute) {
    && a.space != "" && AllSpace(a.space) && Plain(a.name)
    && (a.quote == '\'' || a.quote == '"') && a.quote !in a.value
  }

  predicate AttributesOk(attributes: seq<Attribute>) {
    forall i :: 0 <= i < |attributes| ==> AttributeOk(attributes[i])
  }

  predicate NodeOk(n: Node) {
    match n
    case Text(t) => '<' !in t
    case CData(t) => Find(t, "]]>") == NOT_FOUND
    case Comment(t) => Find(t, "-->") == NOT_FOUND
    case Instruction(t) => Find(t, "?>") == NOT_FOUND
    case Element(name, attributes, pad, children, closePad) =>
      NameOk(name) && AttributesOk(attributes) && AllSpace(pad) && AllSpace(closePad) && NodesOk(children)
    case Empty(name, attributes, pad, closePad) =>
      NameOk(name) && AttributesOk(attributes) && AllSpace(pad) && AllSpace(closePad)
  }

  predicate NodesOk(ns: seq<Node>) {
    ns == [] || (NodeOk(ns[0]) && NodesOk(ns[1..]))
  }

  function PrintAttribute(a: Attribute): string {
    a.space + a.name + "=" + [a.quote] + a.value + [a.quote]
  }

  function PrintAttributes(attributes: seq<Attribute>): string {
    if attributes == [] then "" else PrintAttribute(attributes[0]) + PrintAttributes(attributes[1..])
  }

  function PrintNode(n: Node): string {
    match n
    case Text(t) => t
    case CData(t) => "<![CDATA[" + t + "]]>"
    case Comment(t) => "<!--" + t + "-->"
    case Instruction(t) => "<?" + t + "?>"
    case Element(name, attributes, pad, children, closePad) =>
      "<" + (name + PrintAttributes(attributes) + pad) + ">" + Print(children) + "<" + ("/" + name + closePad) + ">"
    case Empty(name, attributes, pad, closePad) =>
      "<" + (name + PrintAttributes(attributes) + pad + "/" + closePad) + ">"
  }

  function Print(ns: seq<Node>): string {
    if ns == [] then "" else PrintNode(ns[0]) + Print(ns[1..])
  }

  // ---------------------------------------------------------------------
  // Evaluating the tree
  // ---------------------------------------------------------------------

  datatype Found = Found(fields: Fields, seen: Seen)

  function AddText(f: Found, inside: int, text: string): Found
    requires inside < 5
  {
    if inside >= 0 then f.(fields := f.fields[inside := f.fields[inside] + text]) else f
  }

  function Enter(f: Found, inside: int, name: string): Result<Found>
    requires inside < 5
  {
    var index := RequiredIndex(name);
    if inside >= 0 then Err(NotTextOnly)
    else if index < 0 then Ok(f)
    else if f.seen[index] then Err(NotExactlyOnce(index))
    else Ok(f.(seen := f.seen[index := true]))
  }

  /** One node, met inside required field `inside` (or -1). */
  function EvalNode(n: Node, inside: int, f: Found): Result<Found>
    requires inside < 5
  {
    match n
    case Text(t) => Ok(AddText(f, inside, t))
    case CData(t) => Ok(AddText(f, inside, t))
    case Comment(_) => Ok(f)
    case Instruction(_) => Ok(f)
    case Element(name, _, _, children, _) =>
      (match Enter(f, inside, name)
       case Err(e) => Err(e)
       case Ok(f') => Eval(children, RequiredIndex(name), f'))
    case Empty(name, _, _, _) => Enter(f, inside, name)
  }

  function Eval(ns: seq<Node>, inside: int, f: Found): Result<Found>
    requires inside < 5
  {
    if ns == [] then Ok(f)
    else
      match EvalNode(ns[0], inside, f)
      case Err(e) => Err(e)
      case Ok(f') => Eval(ns[1..], inside, f')
  }

  // ---------------------------------------------------------------------
  // Finding terminators
  // ---------------------------------------------------------------------

  function Shift(n: nat, at: int): int {
    if at == NOT_FOUND then NOT_FOUND else n + at
  }

  /** The last character of `pattern` occurs nowhere else in it. */
  predicate Unrepeated(pattern: string) {
    pattern != "" && forall i :: 0 <= i < |pattern| - 1 ==> pattern[i] != pattern[|pattern| - 1]
  }

  lemma {:induction false} FindTerminator(body: string, pattern: string, rest: string)
    requires Unrepeated(pattern) && Find(body, pattern) == NOT_FOUND
    ensures Find(body + pattern + rest, pattern) == |body|
  {
    var s := body + pattern + rest;
    if body == "" {
      assert pattern <= s;
    } else {
      assert s[1..] == body[1..] + pattern + rest;
      if |pattern| <= |body| {
        assert s[..|pattern|] == body[..|pattern|];
      } else {
        assert s[|pattern| - 1] == pattern[|pattern| - 1 - |body|];
      }
      assert !(pattern <= s);
      ShortFindsNothing(body, pattern);
      FindTerminator(body[1..], pattern, rest);
    }
  }

  lemma ShortFindsNothing(body: string, pattern: string)
    requires body != "" && pattern != "" && Find(body, pattern) == NOT_FOUND
    ensures Find(body[1..], pattern) == NOT_FOUND
  {
  }

  lemma {:induction false} FindAfterText(text: string, rest: string)
    requires '<' !in text
    ensures Find(text + rest, "<") == Shift(|text|, Find(rest, "<"))
  {
    if text == "" {
      assert text + rest == rest;
    } else {
      assert (text + rest)[0] == text[0] != '<';
      assert (text + rest)[1..] == text[1..] + rest;
      FindAfterText(text[1..], rest);
    }
  }

  lemma {:induction false} TagEndAfterPlain(s: string, rest: string)
    requires Plain(s)
    ensures TagEnd(s + rest, NO_QUOTE) == Shift(|s|, TagEnd(rest, NO_QUOTE))
  {
    if s == "" {
      assert s + rest == rest;
    } else {
      assert (s + rest)[1..] == s[1..] + rest;
      TagEndAfterPlain(s[1..], rest);
    }
  }

  lemma {:induction false} TagEndAfterQuoted(value: string, quote: char, rest: string)
    requires quote != NO_QUOTE && quote !in value
    ensures TagEnd(value + [quote] + rest, quote) == Shift(|value| + 1, TagEnd(rest, NO_QUOTE))
  {
    var s := value + [quote] + rest;
    if value == "" {
      assert s[1..] == rest;
    } else {
      assert s[1..] == value[1..] + [quote] + rest;
      TagEndAfterQuoted(value[1..], quote, rest);
    }
  }

  lemma SpaceIsPlain(s: string)
    requires AllSpace(s)
    ensures Plain(s)
  {
  }

  lemma TagEndAfterAttribute(a: Attribute, rest: string)
    requires AttributeOk(a)
    ensures TagEnd(PrintAttribute(a) + rest, NO_QUOTE) == Shift(|PrintAttribute(a)|, TagEnd(rest, NO_QUOTE))
  {
    var lead := a.space + a.name + "=";
    var quoted := [a.quote] + a.value + [a.quote] + rest;
    SpaceIsPlain(a.space);
    assert PrintAttribute(a) + rest == lead + quoted;
    TagEndAfterPlain(lead, quoted);
    assert quoted[1..] == a.value + [a.quote] + rest;
    TagEndAfterQuoted(a.value, a.quote, rest);
  }

  lemma {:induction false} TagEndAfterAttributes(attributes: seq<Attribute>, rest: string)
    requires AttributesOk(attributes)
    ensures TagEnd(PrintAttributes(attributes) + rest, NO_QUOTE)
         == Shift(|PrintAttributes(attributes)|, TagEnd(rest, NO_QUOTE))
  {
    if attributes == [] {
      assert PrintAttributes(attributes) + rest == rest;
    } else {
      var tail := PrintAttributes(attributes[1..]);
      assert PrintAttributes(attributes) + rest == PrintAttribute(attributes[0]) + (tail + rest);
      TagEndAfterAttribute(attributes[0], tail + rest);
      TagEndAfterAttributes(attributes[1..], rest);
    }
  }

  // ---------------------------------------------------------------------
  // Reading tags
  // ---------------------------------------------------------------------

  lemma {:induction false} TrimRightSpace(s: string, pad: string)
    requires AllSpace(pad)
    ensures TrimRight(s + pad) == TrimRight(s)
  {
    if pad == "" {
      assert s + pad == s;
    } else {
      var init := pad[..|pad| - 1];
      assert (s + pad)[..|s + pad| - 1] == s + init;
      TrimRightSpace(s, init);
    }
  }

  lemma TrimPadded(s: string, pad: string)
    requires s != "" && Trimmed(s) && AllSpace(pad)
    ensures Trim(s + pad) == s
  {
    TrimRightSpace(s, pad);
  }

  lemma {:induction false} FirstSpaceAfterName(name: string, rest: string)
    requires forall i :: 0 <= i < |name| ==> !IsSpace(name[i])
    requires rest != "" ==> IsSpace(rest[0])
    ensures FirstSpace(name + rest) == |name|
  {
    if name == "" {
      assert name + rest == rest;
    } else {
      assert (name + rest)[1..] == name[1..] + rest;
      FirstSpaceAfterName(name[1..], rest);
    }
  }

  /** Printed attributes start with a space and end with a quote. */
  lemma {:induction false} AttributeEnds(attributes: seq<Attribute>)
    requires AttributesOk(attributes)
    ensures
      var s := PrintAttributes(attributes);
      s != "" ==> IsSpace(s[0]) && (s[|s| - 1] == '\'' || s[|s| - 1] == '"')
  {
    if attributes != [] {
      AttributeEnds(attributes[1..]);
      var first := PrintAttribute(attributes[0]);
      assert IsSpace(first[0]) && first[|first| - 1] == attributes[0].quote;
    }
  }

  /** Name and attributes together: trimmed, no slash at either end, and the name
      is what precedes the first space. */
  lemma BodyShape(name: string, attributes: seq<Attribute>)
    requires NameOk(name) && AttributesOk(attributes)
    ensures
      var body := name + PrintAttributes(attributes);
      && Trimmed(body) && body[0] == name[0] && body[0] != '/' && body[|body| - 1] != '/'
      && FirstSpace(body) == |name| && body[..|name|] == name
  {
    AttributeEnds(attributes);
    FirstSpaceAfterName(name, PrintAttributes(attributes));
  }

  lemma ReadStartTag(name: string, attributes: seq<Attribute>, pad: string, s: Scanner)
    requires NameOk(name) && AttributesOk(attributes) && AllSpace(pad)
    ensures Tag(name + PrintAttributes(attributes) + pad, s) == OpenTag(name, false, s)
  {
    BodyShape(name, attributes);
    TrimPadded(name + PrintAttributes(attributes), pad);
  }

  lemma ReadEmptyTag(name: string, attributes: seq<Attribute>, pad: string, closePad: string, s: Scanner)
    requires NameOk(name) && AttributesOk(attributes) && AllSpace(pad) && AllSpace(closePad)
    ensures Tag(name + PrintAttributes(attributes) + pad + "/" + closePad, s) == OpenTag(name, true, s)
  {
    var body := name + PrintAttributes(attributes);
    BodyShape(name, attributes);
    var tag := body + pad + "/";
    assert tag[|tag| - 1] == '/' && tag[0] == body[0];
    TrimPadded(tag, closePad);
    assert tag[..|tag| - 1] == body + pad;
    TrimPadded(body, pad);
  }

  lemma ReadEndTag(name: string, closePad: string, s: Scanner)
    requires NameOk(name) && AllSpace(closePad)
    requires s.open != [] && s.open[|s.open| - 1].name == name
    ensures Tag("/" + name + closePad, s) == Ok(s.(open := s.open[..|s.open| - 1]))
  {
    var tag := "/" + name;
    assert tag[|tag| - 1] == name[|name| - 1];
    TrimPadded(tag, closePad);
    assert tag[1..] == name;
    TrimPadded(name, "");
    assert name + "" == name;
    FirstSpaceAfterName(name, "");
  }

  // ---------------------------------------------------------------------
  // Scanning printed pieces
  // ---------------------------------------------------------------------

  lemma AppendTwice(s: Scanner, a: string, b: string)
    ensures Append(Append(s, a), b) == Append(s, a + b)
  {
    var k := Inside(s.open);
    if k >= 0 {
      assert s.fields[k] + a + b == s.fields[k] + (a + b);
    }
  }

  lemma MarkupFirst(rest: string, s: Scanner)
    requires rest != "" && rest[0] == '<'
    ensures Scan(rest, s) == ScanFrom(rest, s)
  {
    AppendNothing(s);
    assert Find(rest, "<") == 0;
    assert rest[0..] == rest && rest[..0] == "";
  }

  /** The scan goes on after the markup `printed`. */
  lemma {:induction false} ScanMarkup(printed: string, rest: string, s: Scanner, s': Scanner)
    requires printed != "" && printed[0] == '<'
    requires Markup(printed + rest, s) == Next(|printed|, s')
    ensures Scan(printed + rest, s) == Scan(rest, s')
  {
    MarkupFirst(printed + rest, s);
    assert (printed + rest)[|printed|..] == rest;
  }

  lemma CutAfterText(text: string, rest: string)
    requires '<' !in text
    ensures FromMarkup(text + rest) == FromMarkup(rest)
    ensures Leading(text + rest) == text + Leading(rest)
  {
    FindAfterText(text, rest);
    var at := Find(rest, "<");
    if at != NOT_FOUND {
      assert (text + rest)[..|text| + at] == text + rest[..at];
      assert (text + rest)[|text| + at..] == rest[at..];
    }
  }

  lemma {:induction false} ScanText(text: string, rest: string, s: Scanner)
    requires '<' !in text
    ensures Scan(text + rest, s) == Scan(rest, Append(s, text))
  {
    CutAfterText(text, rest);
    AppendTwice(s, text, Leading(rest));
  }

  lemma ReadComment(all: string, s: Scanner, end: nat)
    requires "<!--" <= all && Find(all[4..], "-->") == end
    ensures Markup(all, s) == Next(end + 7, s)
  {
  }

  lemma ReadCData(all: string, s: Scanner, end: nat)
    requires "<![CDATA[" <= all && Find(all[9..], "]]>") == end
    ensures Markup(all, s) == Next(end + 12, Append(s, all[9..9 + end]))
  {
    assert all[2] == "<![CDATA["[2] != "<!--"[2];
  }

  lemma ReadInstruction(all: string, s: Scanner, end: nat)
    requires "<?" <= all && Find(all[2..], "?>") == end
    ensures Markup(all, s) == Next(end + 4, s)
  {
    assert all[1] == "<?"[1] != "<!--"[1] == "<![CDATA["[1];
  }

  lemma Split(open: string, tail: string)
    requires open != ""
    ensures open <= open + tail && (open + tail)[0] == open[0] && (open + tail)[|open|..] == tail
  {
  }

  lemma {:induction false} DelimitedText(open: string, text: string, close: string, rest: string)
    requires open != ""
    ensures
      var all := open + text + close + rest;
      && open <= all && all[0] == open[0]
      && all[|open|..] == text + close + rest && all[|open|..|open| + |text|] == text
  {
    var tail := text + close + rest;
    assert open + text + close + rest == open + tail;
    Split(open, tail);
    assert (open + tail)[|open|..|open| + |text|] == text;
  }

  lemma {:induction false} Delimited(open: string, text: string, close: string, rest: string)
    requires open != "" && Unrepeated(close) && Find(text, close) == NOT_FOUND
    ensures Find((open + text + close + rest)[|open|..], close) == |text|
  {
    DelimitedText(open, text, close, rest);
    FindTerminator(text, close, rest);
  }

  lemma {:induction false} ScanComment(text: string, rest: string, s: Scanner)
    requires Find(text, "-->") == NOT_FOUND
    ensures Scan("<!--" + text + "-->" + rest, s) == Scan(rest, s)
  {
    var printed := "<!--" + text + "-->";
    DelimitedText("<!--", text, "-->", rest);
    Delimited("<!--", text, "-->", rest);
    ReadComment(printed + rest, s, |text|);
    ScanMarkup(printed, rest, s, s);
  }

  lemma {:induction false} ScanCData(text: string, rest: string, s: Scanner)
    requires Find(text, "]]>") == NOT_FOUND
    ensures Scan("<![CDATA[" + text + "]]>" + rest, s) == Scan(rest, Append(s, text))
  {
    var printed := "<![CDATA[" + text + "]]>";
    DelimitedText("<![CDATA[", text, "]]>", rest);
    Delimited("<![CDATA[", text, "]]>", rest);
    ReadCData(printed + rest, s, |text|);
    ScanMarkup(printed, rest, s, Append(s, text));
  }

  lemma {:induction false} ScanInstruction(text: string, rest: string, s: Scanner)
    requires Find(text, "?>") == NOT_FOUND
    ensures Scan("<?" + text + "?>" + rest, s) == Scan(rest, s)
  {
    var printed := "<?" + text + "?>";
    DelimitedText("<?", text, "?>", rest);
    Delimited("<?", text, "?>", rest);
    ReadInstruction(printed + rest, s, |text|);
    ScanMarkup(printed, rest, s, s);
  }

  function Then(r: Result<Scanner>, rest: string): Result<Scanner> {
    match r
    case Err(e) => Err(e)
    case Ok(s) => Scan(rest, s)
  }

  function TagStep(r: Result<Scanner>, consumed: nat): Step {
    match r
    case Err(e) => Fail(e)
    case Ok(s) => Next(consumed, s)
  }

  lemma ReadTagMarkup(all: string, s: Scanner, end: nat)
    requires |all| > 1 && all[0] == '<' && all[1] != '!' && all[1] != '?'
    requires TagEnd(all[1..], NO_QUOTE) == end
    ensures Markup(all, s) == TagStep(Tag(all[1..1 + end], s), end + 2)
  {
    assert all[1] != "<!--"[1] == "<![CDATA["[1] == "<!"[1];
    assert all[1] != "<?"[1];
  }

  lemma {:induction false} ScanTag(inner: string, rest: string, s: Scanner)
    requires inner != "" && inner[0] != '!' && inner[0] != '?'
    requires TagEnd(inner + ">" + rest, NO_QUOTE) == |inner|
    ensures Scan("<" + inner + ">" + rest, s) == Then(Tag(inner, s), rest)
  {
    var all := "<" + inner + ">" + rest;
    assert all == "<" + (inner + ">" + rest);
    Split("<", inner + ">" + rest);
    assert all[1..1 + |inner|] == inner;
    assert all[1] == inner[0];
    ReadTagMarkup(all, s, |inner|);
    MarkupFirst(all, s);
    assert all[|inner| + 2..] == rest;
  }

  // ---------------------------------------------------------------------
  // The scan of a printed tree is the evaluation of the tree
  // ---------------------------------------------------------------------

  function Continue(r: Result<Found>, open: seq<OpenElement>, rest: string): Result<Scanner> {
    match r
    case Err(e) => Err(e)
    case Ok(f) => Scan(rest, Scanner(f.fields, f.seen, open))
  }

  lemma ScanStartTag(n: Node, rest: string, s: Scanner)
    requires n.Element? && NodeOk(n)
    ensures
      var inner := n.name + PrintAttributes(n.attributes) + n.pad;
      Scan("<" + inner + ">" + rest, s)
      == Then(OpenTag(n.name, false, s), rest)
  {
    var inner := n.name + PrintAttributes(n.attributes) + n.pad;
    var tail := n.pad + (">" + rest);
    SpaceIsPlain(n.pad);
    assert inner + ">" + rest == n.name + (PrintAttributes(n.attributes) + tail);
    TagEndAfterPlain(n.name, PrintAttributes(n.attributes) + tail);
    TagEndAfterAttributes(n.attributes, tail);
    TagEndAfterPlain(n.pad, ">" + rest);
    ReadStartTag(n.name, n.attributes, n.pad, s);
    assert inner[0] == n.name[0];
    ScanTag(inner, rest, s);
  }

  lemma {:induction false} EmptyTagEnd(n: Node, rest: string)
    requires n.Empty? && NodeOk(n)
    ensures
      var inner := n.name + PrintAttributes(n.attributes) + n.pad + "/" + n.closePad;
      TagEnd(inner + ">" + rest, NO_QUOTE) == |inner|
  {
    var inner := n.name + PrintAttributes(n.attributes) + n.pad + "/" + n.closePad;
    var close := n.pad + "/" + n.closePad;
    var tail := close + (">" + rest);
    SpaceIsPlain(n.pad);
    SpaceIsPlain(n.closePad);
    assert inner + ">" + rest == n.name + (PrintAttributes(n.attributes) + tail);
    TagEndAfterPlain(n.name, PrintAttributes(n.attributes) + tail);
    TagEndAfterAttributes(n.attributes, tail);
    TagEndAfterPlain(close, ">" + rest);
  }

  lemma {:induction false} ScanEmptyTag(n: Node, rest: string, s: Scanner)
    requires n.Empty? && NodeOk(n)
    ensures Scan(PrintNode(n) + rest, s) == Then(OpenTag(n.name, true, s), rest)
  {
    var inner := n.name + PrintAttributes(n.attributes) + n.pad + "/" + n.closePad;
    EmptyTagEnd(n, rest);
    ReadEmptyTag(n.name, n.attributes, n.pad, n.closePad, s);
    assert inner[0] == n.name[0];
    ScanTag(inner, rest, s);
  }

  lemma ScanEndTag(name: string, closePad: string, rest: string, s: Scanner)
    requires NameOk(name) && AllSpace(closePad)
    requires s.open != [] && s.open[|s.open| - 1].name == name
    ensures Scan("<" + ("/" + name + closePad) + ">" + rest, s) == Scan(rest, s.(open := s.open[..|s.open| - 1]))
  {
    var inner := "/" + name + closePad;
    SpaceIsPlain(closePad);
    assert inner + ">" + rest == inner + (">" + rest);
    TagEndAfterPlain(inner, ">" + rest);
    ReadEndTag(name, closePad, s);
    ScanTag(inner, rest, s);
  }

  lemma {:induction false} ScanNode(n: Node, rest: string, s: Scanner)
    requires NodeOk(n)
    ensures Scan(PrintNode(n) + rest, s)
         == Continue(EvalNode(n, Inside(s.open), Found(s.fields, s.seen)), s.open, rest)
    decreases n, 2
  {
    match n
    case Text(t) => ScanText(t, rest, s);
    case CData(t) => ScanCData(t, rest, s);
    case Comment(t) => ScanComment(t, rest, s);
    case Instruction(t) => ScanInstruction(t, rest, s);
    case Empty(name, _, _, _) => ScanEmptyTag(n, rest, s);
    case Element(name, attributes, pad, children, closePad) => ScanElement(n, rest, s);
  }

  function StartTag(n: Node): string
    requires n.Element?
  {
    "<" + (n.name + PrintAttributes(n.attributes) + n.pad) + ">"
  }

  function EndTag(n: Node): string
    requires n.Element?
  {
    "<" + ("/" + n.name + n.closePad) + ">"
  }

  lemma {:induction false} ElementParts(n: Node, rest: string)
    requires n.Element?
    ensures PrintNode(n) + rest == StartTag(n) + (Print(n.children) + (EndTag(n) + rest))
  {
    var a, b, c := StartTag(n), Print(n.children), EndTag(n);
    assert PrintNode(n) == a + b + "<" + ("/" + n.name + n.closePad) + ">" == a + b + c;
    assert a + b + c + rest == a + (b + (c + rest));
  }

  lemma {:induction false} ScanElement(n: Node, rest: string, s: Scanner)
    requires n.Element? && NodeOk(n)
    ensures Scan(PrintNode(n) + rest, s)
         == Continue(EvalNode(n, Inside(s.open), Found(s.fields, s.seen)), s.open, rest)
    decreases n, 1
  {
    ElementParts(n, rest);
    ScanStartTag(n, Print(n.children) + (EndTag(n) + rest), s);
    match OpenTag(n.name, false, s)
    case Err(_) =>
    case Ok(s1) => ScanContent(n, rest, s, s1);
  }

  /** The content and end tag of an element entered in state `s1`. */
  lemma {:induction false} ScanContent(n: Node, rest: string, s: Scanner, s1: Scanner)
    requires n.Element? && NodeOk(n)
    requires s1.open == s.open + [OpenElement(n.name, RequiredIndex(n.name))]
    ensures Scan(Print(n.children) + (EndTag(n) + rest), s1)
         == Continue(Eval(n.children, RequiredIndex(n.name), Found(s1.fields, s1.seen)), s.open, rest)
    decreases n, 0
  {
    assert Inside(s1.open) == RequiredIndex(n.name);
    ScanNodes(n.children, EndTag(n) + rest, s1);
    match Eval(n.children, RequiredIndex(n.name), Found(s1.fields, s1.seen))
    case Err(_) =>
    case Ok(f) =>
      ScanEndTag(n.name, n.closePad, rest, Scanner(f.fields, f.seen, s1.open));
      assert s1.open[..|s1.open| - 1] == s.open;
  }

  /** For every printable sequence of nodes and whatever follows it, the scan
      reaches what follows in the state the tree evaluates to, or fails as the
      evaluation fails. */
  lemma {:induction false} ScanNodes(ns: seq<Node>, rest: string, s: Scanner)
    requires NodesOk(ns)
    ensures Scan(Print(ns) + rest, s)
         == Continue(Eval(ns, Inside(s.open), Found(s.fields, s.seen)), s.open, rest)
    decreases ns
  {
    if ns == [] {
      assert Print(ns) + rest == rest;
    } else {
      assert Print(ns) + rest == PrintNode(ns[0]) + (Print(ns[1..]) + rest);
      ScanNode(ns[0], Print(ns[1..]) + rest, s);
      match EvalNode(ns[0], Inside(s.open), Found(s.fields, s.seen))
      case Err(_) =>
      case Ok(f) => ScanNodes(ns[1..], rest, Scanner(f.fields, f.seen, s.open));
    }
  }

  // ---------------------------------------------------------------------
  // Which trees are accepted, and with what fields
  // ---------------------------------------------------------------------

  function CountNode(n: Node, i: nat): nat {
    match n
    case Element(name, _, _, children, _) => (if RequiredIndex(name) == i then 1 else 0) + Count(children, i)
    case Empty(name, _, _, _) => if RequiredIndex(name) == i then 1 else 0
    case _ => 0
  }

  /** How many elements carry required tag `i`. */
  function Count(ns: seq<Node>, i: nat): nat {
    if ns == [] then 0 else CountNode(ns[0], i) + Count(ns[1..], i)
  }

  /** No element among the nodes. */
  predicate Leafy(ns: seq<Node>) {
    forall i :: 0 <= i < |ns| ==> !ns[i].Element? && !ns[i].Empty?
  }

  /** The text and CDATA standing directly among the nodes. */
  function OwnText(ns: seq<Node>): string {
    if ns == [] then ""
    else (if ns[0].Text? || ns[0].CData? then ns[0].text else "") + OwnText(ns[1..])
  }

  predicate TextOnlyNode(n: Node) {
    n.Element? ==> if RequiredIndex(n.name) >= 0 then Leafy(n.children) else TextOnly(n.children)
  }

  /** Required elements contain no elements. */
  predicate TextOnly(ns: seq<Node>) {
    ns == [] || (TextOnlyNode(ns[0]) && TextOnly(ns[1..]))
  }

  function FieldTextNode(n: Node, i: nat): string {
    if !n.Element? then ""
    else if RequiredIndex(n.name) == i then OwnText(n.children)
    else FieldText(n.children, i)
  }

  /** The text of the elements that carry required tag `i`. */
  function FieldText(ns: seq<Node>, i: nat): string {
    if ns == [] then "" else FieldTextNode(ns[0], i) + FieldText(ns[1..], i)
  }

  lemma AddTextTwice(f: Found, inside: int, a: string, b: string)
    requires inside < 5
    ensures AddText(AddText(f, inside, a), inside, b) == AddText(f, inside, a + b)
    ensures AddText(f, inside, "") == f
  {
    if inside >= 0 {
      assert f.fields[inside] + a + b == f.fields[inside] + (a + b);
      assert f.fields[inside] + "" == f.fields[inside];
    }
  }

  lemma {:induction false} EvalInside(ns: seq<Node>, inside: int, f: Found)
    requires 0 <= inside < 5
    ensures Eval(ns, inside, f).Ok? <==> Leafy(ns)
    ensures Leafy(ns) ==> Eval(ns, inside, f) == Ok(AddText(f, inside, OwnText(ns)))
  {
    if ns == [] {
      AddTextTwice(f, inside, "", "");
    } else if !ns[0].Element? && !ns[0].Empty? {
      var text := if ns[0].Text? || ns[0].CData? then ns[0].text else "";
      AddTextTwice(f, inside, text, OwnText(ns[1..]));
      EvalInside(ns[1..], inside, AddText(f, inside, text));
      assert Leafy(ns) <==> Leafy(ns[1..]);
    }
  }

  lemma {:induction false} LeafyHasNoFields(ns: seq<Node>, i: nat)
    requires Leafy(ns)
    ensures Count(ns, i) == 0 && FieldText(ns, i) == ""
  {
    if ns != [] {
      LeafyHasNoFields(ns[1..], i);
    }
  }

  function Seen1(f: Found, i: nat): nat
    requires i < 5
  {
    if f.seen[i] then 1 else 0
  }

  ghost predicate NodeFits(n: Node, f: Found) {
    TextOnlyNode(n) && forall i: nat :: i < 5 ==> CountNode(n, i) + Seen1(f, i) <= 1
  }

  ghost predicate Fits(ns: seq<Node>, f: Found) {
    TextOnly(ns) && forall i: nat :: i < 5 ==> Count(ns, i) + Seen1(f, i) <= 1
  }

  lemma {:induction false} EvalNodeOutside(n: Node, f: Found)
    ensures EvalNode(n, -1, f).Ok? <==> NodeFits(n, f)
    ensures NodeFits(n, f) ==> forall i: nat :: i < 5 ==>
              && Seen1(EvalNode(n, -1, f).value, i) == Seen1(f, i) + CountNode(n, i)
              && EvalNode(n, -1, f).value.fields[i] == f.fields[i] + FieldTextNode(n, i)
    decreases n, 1
  {
    match n
    case Element(name, attributes, pad, children, closePad) =>
      var index := RequiredIndex(name);
      if index < 0 {
        EvalOutside(children, f);
      } else {
        if Leafy(children) {
          forall i: nat | i < 5
            ensures CountNode(n, i) == if index == i then 1 else 0
            ensures FieldTextNode(n, i) == if index == i then OwnText(children) else ""
          {
            LeafyHasNoFields(children, i);
          }
        }
        assert CountNode(n, index) >= 1;
        if !f.seen[index] {
          EvalInside(children, index, f.(seen := f.seen[index := true]));
        }
      }
    case Empty(name, attributes, pad, closePad) =>
      var index := RequiredIndex(name);
      assert index >= 0 ==> CountNode(n, index) == 1;
    case _ =>
  }

  lemma {:induction false} EvalOutside(ns: seq<Node>, f: Found)
    ensures Eval(ns, -1, f).Ok? <==> Fits(ns, f)
    ensures Fits(ns, f) ==> forall i: nat :: i < 5 ==>
              && Seen1(Eval(ns, -1, f).value, i) == Seen1(f, i) + Count(ns, i)
              && Eval(ns, -1, f).value.fields[i] == f.fields[i] + FieldText(ns, i)
    decreases ns
  {
    if ns != [] {
      EvalNodeOutside(ns[0], f);
      if NodeFits(ns[0], f) {
        EvalOutside(ns[1..], EvalNode(ns[0], -1, f).value);
      }
    }
  }

  ghost predicate AtMostOnce(doc: seq<Node>) {
    forall i: nat :: i < 5 ==> Count(doc, i) <= 1
  }

  /** The document is one the client can use. */
  ghost predicate Acceptable(doc: seq<Node>) {
    && TextOnly(doc) && AtMostOnce(doc)
    && forall i: nat :: i < 5 ==>
         && (i > 0 ==> Count(doc, i) == 1)
         && (Count(doc, i) == 1 ==> 1 <= |Trim(FieldText(doc, i))| <= MAXIMUM_FIELD_LENGTH)
  }

  function FieldOf(doc: seq<Node>, i: nat): string {
    if Count(doc, i) == 0 then DEFAULT_NAME else Trim(FieldText(doc, i))
  }

  lemma {:induction false} ScanOfDocument(doc: seq<Node>, f: Found)
    requires NodesOk(doc)
    ensures
      var r := Scan(Print(doc), Scanner(f.fields, f.seen, []));
      match Eval(doc, -1, f)
      case Err(e) => r == Err(e)
      case Ok(end) => r == Ok(Scanner(end.fields, end.seen, []))
  {
    assert Print(doc) + "" == Print(doc);
    ScanNodes(doc, "", Scanner(f.fields, f.seen, []));
    if Eval(doc, -1, f).Ok? {
      var end := Eval(doc, -1, f).value;
      AppendNothing(Scanner(end.fields, end.seen, []));
    }
  }

  /** `s` has read exactly what stands in the document. */
  ghost predicate HasRead(s: Scanner, doc: seq<Node>) {
    && s.open == []
    && forall i: nat :: i < 5 ==> s.fields[i] == FieldText(doc, i) && s.seen[i] == (Count(doc, i) == 1)
  }

  lemma {:induction false} FinishMeans(s: Scanner, doc: seq<Node>)
    requires TextOnly(doc) && AtMostOnce(doc) && HasRead(s, doc)
    ensures Finish(s).Ok? <==> Acceptable(doc)
    ensures Acceptable(doc) ==>
              && |Finish(s).value| == 5
              && forall i :: 0 <= i < 5 ==> Finish(s).value[i] == FieldOf(doc, i)
  {
    forall i: nat | i < 5
      ensures FieldAt(s, i).Ok? <==>
                && (i > 0 ==> Count(doc, i) == 1)
                && (Count(doc, i) == 1 ==> 1 <= |Trim(FieldText(doc, i))| <= MAXIMUM_FIELD_LENGTH)
      ensures FieldAt(s, i).Ok? ==> FieldAt(s, i).value == FieldOf(doc, i)
    {
    }
  }

  lemma {:induction false} FitsAtStart(doc: seq<Node>, f: Found)
    requires forall i: nat :: i < 5 ==> !f.seen[i]
    ensures Fits(doc, f) <==> TextOnly(doc) && AtMostOnce(doc)
  {
    if Fits(doc, f) {
      forall i: nat | i < 5 ensures Count(doc, i) <= 1 {
        assert Count(doc, i) + Seen1(f, i) <= 1;
      }
    }
    if TextOnly(doc) && AtMostOnce(doc) {
      forall i: nat | i < 5 ensures Count(doc, i) + Seen1(f, i) <= 1 {
        assert Count(doc, i) <= 1;
      }
    }
  }

  lemma {:induction false} ScanMeans(doc: seq<Node>, f: Found)
    requires NodesOk(doc)
    requires forall i: nat :: i < 5 ==> !f.seen[i] && f.fields[i] == ""
    ensures
      var r := Scan(Print(doc), Scanner(f.fields, f.seen, []));
      && (r.Ok? <==> TextOnly(doc) && AtMostOnce(doc))
      && (r.Ok? ==> HasRead(r.value, doc))
  {
    ScanOfDocument(doc, f);
    EvalOutside(doc, f);
    FitsAtStart(doc, f);
    if Fits(doc, f) {
      var end := Eval(doc, -1, f).value;
      forall i: nat | i < 5
        ensures end.fields[i] == FieldText(doc, i) && end.seen[i] == (Count(doc, i) == 1)
      {
        assert f.fields[i] + FieldText(doc, i) == FieldText(doc, i);
        assert Seen1(end, i) == Count(doc, i);
      }
    }
  }

  /** For every printable document: the scanner accepts its text if and only if
      the tree is acceptable, and then returns each field's trimmed text. */
  lemma {:induction false} RoundTrip(doc: seq<Node>)
    requires NodesOk(doc)
    ensures Extract(Print(doc)).Ok? <==> Acceptable(doc)
    ensures Acceptable(doc) ==>
              && |Extract(Print(doc)).value| == 5
              && forall i :: 0 <= i < 5 ==> Extract(Print(doc)).value[i] == FieldOf(doc, i)
  {
    ScanMeans(doc, Found(START.fields, START.seen));
    if Scan(Print(doc), START).Ok? {
      FinishMeans(Scan(Print(doc), START).value, doc);
    }
  }
}
