/**
 The field scanner for the sensor's configuration document.

 `ExtractRequiredFields` walks the document by position, keeping the open
 elements on a stack.  `Extract` is the same computation on the unread rest of
 the document and is what the loop is proved against; `XmlDocument.dfy` says
 what it means for a document tree.
 */
module XmlScanner {

  const MAXIMUM_FIELD_LENGTH := 128
  const REQUIRED_TAGS: seq<string> := ["prodname", "cfgcpf", "cfgcpt", "scfgfu", "scfgtu"]
  const DEFAULT_NAME := "ATI Net F/T"
  const NO_QUOTE := '\0'
  const NOT_FOUND := -1

  datatype Error =
    | UnterminatedMarkup | UnterminatedComment | UnterminatedCData
    | UnsupportedMarkup | MalformedMarkup | MalformedNesting
    | NotTextOnly | NotExactlyOnce(index: nat) | EmptyField(index: nat) | TooLong(index: nat)

  datatype Result<T> = Ok(value: T) | Err(error: Error)

  // ---------------------------------------------------------------------
  // Strings
  // ---------------------------------------------------------------------

  predicate IsSpace(c: char) {
    c == ' ' || c == '\t' || c == '\n' || c == '\r' || c == '\U{0C}' || c == '\U{0B}'
  }

  predicate AllSpace(s: string) {
    forall i :: 0 <= i < |s| ==> IsSpace(s[i])
  }

  function TrimLeft(s: string): string {
    if s != "" && IsSpace(s[0]) then TrimLeft(s[1..]) else s
  }

  function TrimRight(s: string): string {
    if s != "" && IsSpace(s[|s| - 1]) then TrimRight(s[..|s| - 1]) else s
  }

  function Trim(s: string): string {
    TrimRight(TrimLeft(s))
  }

  method TrimAsciiWhitespace(s: string) returns (value: string)
    ensures value == Trim(s)
  {
    value := s;
    while value != "" && IsSpace(value[0])
      invariant Trim(value) == Trim(s)
      decreases |value|
    {
      value := value[1..];
    }
    ghost var front := value;
    while value != "" && IsSpace(value[|value| - 1])
      invariant TrimRight(value) == TrimRight(front)
      decreases |value|
    {
      value := value[..|value| - 1];
    }
  }

  /** Where `pattern` first occurs, or NOT_FOUND. */
  function Find(s: string, pattern: string): (at: int)
    ensures at == NOT_FOUND || 0 <= at <= |s| - |pattern|
  {
    if |s| < |pattern| then NOT_FOUND
    else if pattern <= s then 0
    else if s == "" then NOT_FOUND
    else
      var at := Find(s[1..], pattern);
      if at == NOT_FOUND then NOT_FOUND else at + 1
  }

  lemma FindHits(s: string, pattern: string)
    requires Find(s, pattern) != NOT_FOUND
    ensures pattern <= s[Find(s, pattern)..]
  {
  }

  /** The length of the longest prefix without whitespace. */
  function FirstSpace(s: string): (at: nat)
    ensures at <= |s|
  {
    if s == "" || IsSpace(s[0]) then 0 else 1 + FirstSpace(s[1..])
  }

  /** Where the tag that `s` continues ends: the first `>` outside quotes. */
  function TagEnd(s: string, quote: char): (at: int)
    ensures at == NOT_FOUND || 0 <= at < |s|
  {
    if s == "" then NOT_FOUND
    else if quote == NO_QUOTE && s[0] == '>' then 0
    else
      var at := TagEnd(s[1..], NextQuote(quote, s[0]));
      if at == NOT_FOUND then NOT_FOUND else at + 1
  }

  function NextQuote(quote: char, c: char): char {
    if quote != NO_QUOTE then (if c == quote then NO_QUOTE else quote)
    else if c == '\'' || c == '"' then c
    else NO_QUOTE
  }

  method FindTagEnd(xml: string, start: nat) returns (end: int)
    requires start <= |xml|
    ensures end == if TagEnd(xml[start..], NO_QUOTE) == NOT_FOUND then NOT_FOUND
                   else start + TagEnd(xml[start..], NO_QUOTE)
  {
    var quote := NO_QUOTE;
    var position := start;
    while position < |xml|
      invariant start <= position <= |xml|
      invariant TagEnd(xml[start..], NO_QUOTE)
             == if TagEnd(xml[position..], quote) == NOT_FOUND then NOT_FOUND
                else position - start + TagEnd(xml[position..], quote)
    {
      var c := xml[position];
      assert xml[position..][1..] == xml[position + 1..];
      if quote != NO_QUOTE {
        if c == quote {
          quote := NO_QUOTE;
        }
      } else if c == '\'' || c == '"' {
        quote := c;
      } else if c == '>' {
        return position;
      }
      position := position + 1;
    }
    return NOT_FOUND;
  }

  // ---------------------------------------------------------------------
  // The scanner
  // ---------------------------------------------------------------------

  datatype OpenElement = OpenElement(name: string, required: int)

  type Fields = f: seq<string> | |f| == 5 witness ["", "", "", "", ""]
  type Seen = f: seq<bool> | |f| == 5 witness [false, false, false, false, false]

  datatype Scanner = Scanner(fields: Fields, seen: Seen, open: seq<OpenElement>)

  const START := Scanner(["", "", "", "", ""], [false, false, false, false, false], [])

  function RequiredIndex(name: string): (index: int)
    ensures -1 <= index < 5
    ensures index >= 0 ==> REQUIRED_TAGS[index] == name
  {
    if name == REQUIRED_TAGS[0] then 0
    else if name == REQUIRED_TAGS[1] then 1
    else if name == REQUIRED_TAGS[2] then 2
    else if name == REQUIRED_TAGS[3] then 3
    else if name == REQUIRED_TAGS[4] then 4
    else -1
  }

  /** The required field whose text is being read, or -1. */
  function Inside(open: seq<OpenElement>): (index: int)
    ensures index < 5
  {
    if open != [] && open[|open| - 1].required < 5 then open[|open| - 1].required else -1
  }

  function Append(s: Scanner, text: string): Scanner {
    if Inside(s.open) >= 0
    then s.(fields := s.fields[Inside(s.open) := s.fields[Inside(s.open)] + text])
    else s
  }

  function CloseTag(tag: string, s: Scanner): Result<Scanner>
    requires tag != ""
  {
    var name := Trim(tag[1..]);
    if || name == "" || FirstSpace(name) < |name| || '/' in name
       || s.open == [] || s.open[|s.open| - 1].name != name
    then Err(MalformedNesting)
    else Ok(s.(open := s.open[..|s.open| - 1]))
  }

  function OpenTag(name: string, selfClosing: bool, s: Scanner): Result<Scanner> {
    var index := RequiredIndex(name);
    if Inside(s.open) >= 0 then Err(NotTextOnly)
    else if index >= 0 && s.seen[index] then Err(NotExactlyOnce(index))
    else
      var s1 := if index >= 0 then s.(seen := s.seen[index := true]) else s;
      Ok(if selfClosing then s1 else s1.(open := s1.open + [OpenElement(name, index)]))
  }

  /** A start or end tag, given what stands between its angle brackets. */
  function Tag(inner: string, s: Scanner): Result<Scanner> {
    var tag := Trim(inner);
    if tag == "" then Err(MalformedMarkup)
    else if tag[0] == '/' then CloseTag(tag, s)
    else
      var selfClosing := tag[|tag| - 1] == '/';
      var body := if selfClosing then Trim(tag[..|tag| - 1]) else tag;
      var name := body[..FirstSpace(body)];
      if name == "" || name[0] == '/' then Err(MalformedMarkup) else OpenTag(name, selfClosing, s)
  }

  datatype Step = Next(consumed: nat, s: Scanner) | Fail(error: Error)

  /** One piece of markup; `rest` begins with `<`. */
  function Markup(rest: string, s: Scanner): (step: Step)
    requires rest != "" && rest[0] == '<'
    ensures step.Next? ==> 0 < step.consumed <= |rest|
  {
    if "<!--" <= rest then
      var end := Find(rest[4..], "-->");
      if end == NOT_FOUND then Fail(UnterminatedComment) else Next(4 + end + 3, s)
    else if "<![CDATA[" <= rest then
      var end := Find(rest[9..], "]]>");
      if end == NOT_FOUND then Fail(UnterminatedCData) else Next(9 + end + 3, Append(s, rest[9..9 + end]))
    else if "<?" <= rest then
      var end := Find(rest[2..], "?>");
      if end == NOT_FOUND then Fail(UnterminatedMarkup) else Next(2 + end + 2, s)
    else if "<!" <= rest then Fail(UnsupportedMarkup)
    else
      var end := TagEnd(rest[1..], NO_QUOTE);
      if end == NOT_FOUND then Fail(UnterminatedMarkup)
      else
        match Tag(rest[1..1 + end], s)
        case Err(e) => Fail(e)
        case Ok(s') => Next(1 + end + 1, s')
  }

  /** The text before the next markup. */
  function Leading(rest: string): string {
    var at := Find(rest, "<");
    if at == NOT_FOUND then rest else rest[..at]
  }

  /** The rest from the next markup on; empty when there is none. */
  function FromMarkup(rest: string): (markup: string)
    ensures |markup| <= |rest|
    ensures markup != "" ==> markup[0] == '<'
  {
    var at := Find(rest, "<");
    if at == NOT_FOUND then "" else
      FindHits(rest, "<");
      rest[at..]
  }

  /** The scan of the unread rest of a document. */
  function Scan(rest: string, s: Scanner): Result<Scanner>
    decreases |rest|, 1
  {
    ScanFrom(FromMarkup(rest), Append(s, Leading(rest)))
  }

  /** The scan from a piece of markup on, its leading text already taken. */
  function ScanFrom(markup: string, s: Scanner): Result<Scanner>
    requires markup != "" ==> markup[0] == '<'
    decreases |markup|, 0
  {
    if markup == "" then Ok(s)
    else
      match Markup(markup, s)
      case Fail(e) => Err(e)
      case Next(consumed, s') => Scan(markup[consumed..], s')
  }

  function FinishField(seen: bool, text: string, index: nat): Result<string> {
    if !seen then (if index == 0 then Ok(DEFAULT_NAME) else Err(NotExactlyOnce(index)))
    else if Trim(text) == "" then Err(EmptyField(index))
    else if |Trim(text)| > MAXIMUM_FIELD_LENGTH then Err(TooLong(index))
    else Ok(Trim(text))
  }

  function FieldAt(s: Scanner, index: nat): Result<string>
    requires index < 5
  {
    FinishField(s.seen[index], s.fields[index], index)
  }

  /** The first field, from `index` on, that is not usable; 5 if all are. */
  function FirstBad(s: Scanner, index: nat): (bad: nat)
    requires index <= 5
    ensures index <= bad <= 5
    ensures forall i: nat :: index <= i < bad ==> FieldAt(s, i).Ok?
    ensures bad < 5 ==> FieldAt(s, bad).Err?
    decreases 5 - index
  {
    if index == 5 || FieldAt(s, index).Err? then index else FirstBad(s, index + 1)
  }

  function Finish(s: Scanner): (r: Result<seq<string>>)
    ensures r.Ok? <==> s.open == [] && forall i: nat :: i < 5 ==> FieldAt(s, i).Ok?
    ensures r.Ok? ==> |r.value| == 5 && forall i: nat :: i < 5 ==> r.value[i] == FieldAt(s, i).value
  {
    if s.open != [] then Err(MalformedNesting)
    else if FirstBad(s, 0) < 5 then Err(FieldAt(s, FirstBad(s, 0)).error)
    else Ok([FieldAt(s, 0).value, FieldAt(s, 1).value, FieldAt(s, 2).value, FieldAt(s, 3).value, FieldAt(s, 4).value])
  }

  function Extract(xml: string): Result<seq<string>> {
    match Scan(xml, START)
    case Err(e) => Err(e)
    case Ok(s) => Finish(s)
  }

  /** The tag between two positions, as the loop reads it. */
  method ReadTag(inner: string, s: Scanner) returns (r: Result<Scanner>)
    ensures r == Tag(inner, s)
  {
    var tag := TrimAsciiWhitespace(inner);
    if tag == "" {
      return Err(MalformedMarkup);
    }
    if tag[0] == '/' {
      var name := TrimAsciiWhitespace(tag[1..]);
      if || name == "" || FirstSpace(name) < |name| || '/' in name
         || s.open == [] || s.open[|s.open| - 1].name != name {
        return Err(MalformedNesting);
      }
      return Ok(s.(open := s.open[..|s.open| - 1]));
    }
    var selfClosing := false;
    if tag[|tag| - 1] == '/' {
      selfClosing := true;
      tag := TrimAsciiWhitespace(tag[..|tag| - 1]);
    }
    var name := tag[..FirstSpace(tag)];
    if name == "" || name[0] == '/' {
      return Err(MalformedMarkup);
    }
    return OpenTag(name, selfClosing, s);
  }

  /** The piece of markup at `markup`, where a `<` stands. */
  method ReadMarkup(xml: string, markup: nat, s: Scanner) returns (step: Step)
    requires markup < |xml| && xml[markup] == '<'
    ensures step == Markup(xml[markup..], s)
  {
    var unread := xml[markup..];
    if "<!--" <= unread {
      var end := Find(unread[4..], "-->");
      return if end == NOT_FOUND then Fail(UnterminatedComment) else Next(4 + end + 3, s);
    }
    if "<![CDATA[" <= unread {
      var end := Find(unread[9..], "]]>");
      return if end == NOT_FOUND then Fail(UnterminatedCData)
             else Next(9 + end + 3, Append(s, unread[9..9 + end]));
    }
    if "<?" <= unread {
      var end := Find(unread[2..], "?>");
      return if end == NOT_FOUND then Fail(UnterminatedMarkup) else Next(2 + end + 2, s);
    }
    if "<!" <= unread {
      return Fail(UnsupportedMarkup);
    }
    var end := FindTagEnd(xml, markup + 1);
    assert unread[1..] == xml[markup + 1..];
    if end == NOT_FOUND {
      return Fail(UnterminatedMarkup);
    }
    assert unread[1..end - markup] == xml[markup + 1..end];
    var after := ReadTag(xml[markup + 1..end], s);
    return if after.Err? then Fail(after.error) else Next(end + 1 - markup, after.value);
  }

  lemma ScanTail(unread: string, s: Scanner)
    requires Find(unread, "<") == NOT_FOUND
    ensures Scan(unread, s) == Ok(Append(s, unread))
  {
  }

  lemma ScanOnce(unread: string, s: Scanner, step: Step)
    requires FromMarkup(unread) != "" && step == Markup(FromMarkup(unread), Append(s, Leading(unread)))
    ensures step.Fail? ==> Scan(unread, s) == Err(step.error)
    ensures step.Next? ==> Scan(unread, s) == Scan(FromMarkup(unread)[step.consumed..], step.s)
  {
  }

  /** The main loop: the position rises strictly and stays inside the document. */
  method ScanDocument(xml: string, start: Scanner) returns (r: Result<Scanner>)
    ensures r == Scan(xml, start)
  {
    var s := start;
    var position := 0;
    ghost var goal := Scan(xml, start);
    assert xml[0..] == xml;
    while position < |xml|
      invariant 0 <= position <= |xml|
      invariant Scan(xml[position..], s) == goal
      decreases |xml| - position
    {
      var unread := xml[position..];
      var offset := Find(unread, "<");
      if offset == NOT_FOUND {
        ScanTail(unread, s);
        return Ok(Append(s, unread));
      }
      FindHits(unread, "<");
      var step := ReadMarkup(unread, offset, Append(s, unread[..offset]));
      ScanOnce(unread, s, step);
      if step.Fail? {
        return Err(step.error);
      }
      ghost var next := FromMarkup(unread)[step.consumed..];
      s := step.s;
      position := position + offset + step.consumed;
      assert xml[position..] == next;
    }
    ScanTail("", s);
    AppendNothing(s);
    return Ok(s);
  }

  lemma AppendNothing(s: Scanner)
    ensures Append(s, "") == s
  {
    if Inside(s.open) >= 0 {
      assert s.fields[Inside(s.open)] + "" == s.fields[Inside(s.open)];
    }
  }

  method ExtractRequiredFields(xml: string) returns (r: Result<seq<string>>)
    ensures r == Extract(xml)
  {
    var scanned := ScanDocument(xml, START);
    if scanned.Err? {
      return Err(scanned.error);
    }
    r := FinishFields(scanned.value);
  }

  method FinishFields(s: Scanner) returns (r: Result<seq<string>>)
    ensures r == Finish(s)
  {
    if s.open != [] {
      return Err(MalformedNesting);
    }
    var values: seq<string> := [];
    for index := 0 to 5
      invariant |values| == index
      invariant forall i: nat :: i < index ==> FieldAt(s, i) == Ok(values[i])
    {
      var field := FieldAt(s, index);
      if field.Err? {
        assert FirstBad(s, 0) == index;
        return Err(field.error);
      }
      values := values + [field.value];
    }
    assert values == Finish(s).value;
    return Ok(values);
  }

  // ---------------------------------------------------------------------
  // What every input is promised
  // ---------------------------------------------------------------------

  ghost predicate Trimmed(s: string) {
    s != "" ==> !IsSpace(s[0]) && !IsSpace(s[|s| - 1])
  }

  lemma TrimTrims(s: string)
    ensures Trimmed(Trim(s))
  {
    TrimLeftTrims(s);
    TrimRightKeepsFront(TrimLeft(s));
  }

  lemma TrimLeftTrims(s: string)
    ensures TrimLeft(s) != "" ==> !IsSpace(TrimLeft(s)[0])
  {
  }

  lemma TrimRightKeepsFront(s: string)
    ensures TrimRight(s) != "" ==> TrimRight(s)[0] == s[0]
    ensures TrimRight(s) != "" ==> !IsSpace(TrimRight(s)[|TrimRight(s)| - 1])
  {
  }

  /** Whatever the document, accepted fields are five trimmed texts of 1 to 128
      characters. */
  lemma AcceptedFieldsAreClean(xml: string)
    requires Extract(xml).Ok?
    ensures |Extract(xml).value| == 5
    ensures forall i :: 0 <= i < 5 ==>
              1 <= |Extract(xml).value[i]| <= MAXIMUM_FIELD_LENGTH && Trimmed(Extract(xml).value[i])
  {
    var s := Scan(xml, START).value;
    forall i: nat | i < 5 ensures 1 <= |Extract(xml).value[i]| <= MAXIMUM_FIELD_LENGTH
                               && Trimmed(Extract(xml).value[i]) {
      TrimTrims(s.fields[i]);
      assert Extract(xml).value[i] == FieldAt(s, i).value;
    }
  }
}
