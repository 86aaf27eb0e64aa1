/**
 What the field scanner answers on every text, well formed or not.

 A text is cut into pieces (text, start tags, end tags, empty tags) without any
 state.  It is accepted exactly when the cut succeeds, the tags pair up by name,
 and each of the five named elements stands alone, is there the right number of
 times, and has a usable text.
 */
module XmlPieces {
  import opened XmlScanner
  import opened XmlMeaning

  // ---------------------------------------------------------------------
  // Cutting a text into pieces
  // ---------------------------------------------------------------------

  datatype Piece = Chars(text: string) | Open(name: string) | Close(name: string) | Single(name: string)

  datatype Reading = Pieces(ps: seq<Piece>) | Unreadable

  predicate EndName(name: string) {
    name != "" && forall i :: 0 <= i < |name| ==> !Blank(name[i]) && name[i] != '/'
  }

  /** The tag with this text between its angle brackets. */
  function TagPiece(inner: string): Reading {
    var tag := Trim(inner);
    if tag == "" then Unreadable
    else if tag[0] == '/' then
      var name := Trim(tag[1..]);
      if EndName(name) then Pieces([Close(name)]) else Unreadable
    else
      var single := tag[|tag| - 1] == '/';
      var body := if single then Trim(tag[..|tag| - 1]) else tag;
      var name := body[..FirstSpace(body)];
      if name == "" || name[0] == '/' then Unreadable
      else Pieces([if single then Single(name) else Open(name)])
  }

  datatype Lexeme = Lexeme(length: nat, ps: seq<Piece>) | Broken

  /** The markup at the front of `rest`, comments and instructions giving no piece. */
  function LexMarkup(rest: string): (l: Lexeme)
    requires rest != "" && rest[0] == '<'
    ensures l.Lexeme? ==> 0 < l.length <= |rest|
  {
    if "<!--" <= rest then
      var end := Find(rest[4..], "-->");
      if end == NOT_FOUND then Broken else Lexeme(4 + end + 3, [])
    else if "<![CDATA[" <= rest then
      var end := Find(rest[9..], "]]>");
      if end == NOT_FOUND then Broken else Lexeme(9 + end + 3, [Chars(rest[9..9 + end])])
    else if "<?" <= rest then
      var end := Find(rest[2..], "?>");
      if end == NOT_FOUND then Broken else Lexeme(2 + end + 2, [])
    else if "<!" <= rest then Broken
    else
      var end := TagEnd(rest[1..], NO_QUOTE);
      if end == NOT_FOUND then Broken
      else
        match TagPiece(rest[1..1 + end])
        case Unreadable => Broken
        case Pieces(ps) => Lexeme(1 + end + 1, ps)
  }

  function Lex(rest: string): Reading
    decreases |rest|
  {
    var markup := FromMarkup(rest);
    if markup == "" then Pieces([Chars(Leading(rest))])
    else
      match LexMarkup(markup)
      case Broken => Unreadable
      case Lexeme(length, ps) =>
        match Lex(markup[length..])
        case Unreadable => Unreadable
        case Pieces(qs) => Pieces([Chars(Leading(rest))] + (ps + qs))
  }

  // ---------------------------------------------------------------------
  // What is asked of the pieces
  // ---------------------------------------------------------------------

  /** Every end tag names the innermost element still open, and none is left open. */
  predicate Nested(ps: seq<Piece>, stack: seq<string>) {
    if ps == [] then stack == []
    else
      match ps[0]
      case Open(n) => Nested(ps[1..], stack + [n])
      case Close(n) => stack != [] && stack[|stack| - 1] == n && Nested(ps[1..], stack[..|stack| - 1])
      case _ => Nested(ps[1..], stack)
  }

  predicate IsField(name: string) {
    name == "prodname" || name == "cfgcpf" || name == "cfgcpt" || name == "scfgfu" || name == "scfgtu"
  }

  /** No element begins inside a field. */
  predicate Alone(ps: seq<Piece>, inside: bool) {
    if ps == [] then true
    else
      match ps[0]
      case Chars(_) => Alone(ps[1..], inside)
      case Open(n) => !inside && Alone(ps[1..], IsField(n))
      case Single(_) => !inside && Alone(ps[1..], false)
      case Close(_) => Alone(ps[1..], false)
  }

  function Begins(p: Piece, tag: string): nat {
    if (p.Open? || p.Single?) && p.name == tag then 1 else 0
  }

  /** How many elements of that name begin. */
  function Starts(ps: seq<Piece>, tag: string): nat {
    if ps == [] then 0 else Begins(ps[0], tag) + Starts(ps[1..], tag)
  }

  /** The text after each start tag of that name, up to the next tag. */
  function TextAfter(ps: seq<Piece>, tag: string, inside: bool): string {
    if ps == [] then ""
    else if ps[0].Chars? then (if inside then ps[0].text else "") + TextAfter(ps[1..], tag, inside)
    else TextAfter(ps[1..], tag, ps[0].Open? && ps[0].name == tag)
  }

  function ValueIn(ps: seq<Piece>, tag: string): string {
    Trim(TextAfter(ps, tag, false))
  }

  predicate Stands(ps: seq<Piece>, tag: string) {
    Starts(ps, tag) == 1 && 1 <= |ValueIn(ps, tag)| <= 128
  }

  ghost predicate UsablePieces(ps: seq<Piece>) {
    && Nested(ps, []) && Alone(ps, false)
    && Stands(ps, "cfgcpf") && Stands(ps, "cfgcpt") && Stands(ps, "scfgfu") && Stands(ps, "scfgtu")
    && (Starts(ps, "prodname") == 0 || Stands(ps, "prodname"))
  }

  // ---------------------------------------------------------------------
  // The scanner takes the pieces one after the other
  // ---------------------------------------------------------------------

  function Put(p: Piece, s: Scanner): Result<Scanner> {
    match p
    case Chars(t) => Ok(Append(s, t))
    case Open(n) => OpenTag(n, false, s)
    case Single(n) => OpenTag(n, true, s)
    case Close(n) =>
      if s.open == [] || s.open[|s.open| - 1].name != n then Err(MalformedNesting)
      else Ok(s.(open := s.open[..|s.open| - 1]))
  }

  function PutAll(ps: seq<Piece>, s: Scanner): Result<Scanner> {
    if ps == [] then Ok(s)
    else
      match Put(ps[0], s)
      case Err(e) => Err(e)
      case Ok(s') => PutAll(ps[1..], s')
  }

  lemma {:induction false} PutJoined(a: seq<Piece>, b: seq<Piece>, s: Scanner)
    ensures PutAll(a + b, s) == if PutAll(a, s).Ok? then PutAll(b, PutAll(a, s).value) else PutAll(a, s)
  {
    if a == [] {
      assert a + b == b;
    } else {
      assert (a + b)[1..] == a[1..] + b;
      if Put(a[0], s).Ok? {
        PutJoined(a[1..], b, Put(a[0], s).value);
      }
    }
  }

  lemma PutOne(p: Piece, s: Scanner)
    ensures PutAll([p], s) == Put(p, s)
  {
    assert [p][1..] == [];
  }

  lemma {:induction false} FirstSpaceMeans(s: string)
    ensures FirstSpace(s) < |s| ==> Blank(s[FirstSpace(s)])
    ensures forall i :: 0 <= i < FirstSpace(s) ==> !Blank(s[i])
  {
    if s != "" && !IsSpace(s[0]) {
      FirstSpaceMeans(s[1..]);
      forall i | 1 <= i < FirstSpace(s) ensures !Blank(s[i]) {
        assert s[i] == s[1..][i - 1];
      }
    }
  }

  /** The scanner and the cut agree, up to which error is reported. */
  predicate Agree(r: Result<Scanner>, reading: Reading, s: Scanner) {
    && (r.Ok? <==> reading.Pieces? && PutAll(reading.ps, s).Ok?)
    && (r.Ok? ==> r == PutAll(reading.ps, s))
  }

  lemma TagAgrees(inner: string, s: Scanner)
    ensures Agree(Tag(inner, s), TagPiece(inner), s)
  {
    var tag := Trim(inner);
    if tag != "" && tag[0] == '/' {
      FirstSpaceMeans(Trim(tag[1..]));
    }
    if TagPiece(inner).Pieces? {
      PutOne(TagPiece(inner).ps[0], s);
    }
  }

  predicate StepAgrees(step: Step, l: Lexeme, s: Scanner) {
    && (step.Next? <==> l.Lexeme? && PutAll(l.ps, s).Ok?)
    && (step.Next? ==> l.length == step.consumed && Ok(step.s) == PutAll(l.ps, s))
  }

  lemma MarkupAgrees(rest: string, s: Scanner)
    requires rest != "" && rest[0] == '<'
    ensures StepAgrees(Markup(rest, s), LexMarkup(rest), s)
  {
    if "<!--" <= rest {
    } else if "<![CDATA[" <= rest {
      if LexMarkup(rest).Lexeme? {
        PutOne(LexMarkup(rest).ps[0], s);
      }
    } else {
      var end := TagEnd(rest[1..], NO_QUOTE);
      if end != NOT_FOUND {
        TagAgrees(rest[1..1 + end], s);
      }
    }
  }

  lemma {:induction false} ScanAgrees(rest: string, s: Scanner)
    ensures Agree(Scan(rest, s), Lex(rest), s)
    decreases |rest|
  {
    var lead, markup := Chars(Leading(rest)), FromMarkup(rest);
    var s1 := Append(s, Leading(rest));
    PutOne(lead, s);
    if markup != "" {
      MarkupAgrees(markup, s1);
      if l: Lexeme :| l == LexMarkup(markup) && l.Lexeme? {
        var qs := Lex(markup[l.length..]);
        if qs.Pieces? {
          PutJoined([lead], l.ps + qs.ps, s);
          PutJoined(l.ps, qs.ps, s1);
        }
        if PutAll(l.ps, s1).Ok? {
          ScanAgrees(markup[l.length..], PutAll(l.ps, s1).value);
        }
      }
    }
  }

  // ---------------------------------------------------------------------
  // What taking the pieces comes to
  // ---------------------------------------------------------------------

  function Names(open: seq<OpenElement>): (names: seq<string>)
    ensures |names| == |open| && forall i :: 0 <= i < |open| ==> names[i] == open[i].name
  {
    seq(|open|, i requires 0 <= i < |open| => open[i].name)
  }

  /** Elements carry their own number, and only the innermost can be a field. */
  predicate StackOk(open: seq<OpenElement>) {
    && (forall i :: 0 <= i < |open| ==> open[i].required == RequiredIndex(open[i].name))
    && (forall i :: 0 <= i < |open| - 1 ==> open[i].required < 0)
  }

  function Met(s: Scanner, i: nat): nat
    requires i < 5
  {
    if s.seen[i] then 1 else 0
  }

  ghost predicate AtMostOnceMore(ps: seq<Piece>, s: Scanner) {
    forall i :: 0 <= i < 5 ==> Starts(ps, REQUIRED_TAGS[i]) + Met(s, i) <= 1
  }

  /** The pieces can all be taken, and close what is open. */
  ghost predicate Fine(ps: seq<Piece>, s: Scanner) {
    Nested(ps, Names(s.open)) && Alone(ps, Inside(s.open) >= 0) && AtMostOnceMore(ps, s)
  }

  lemma FieldIsRequired(name: string)
    ensures IsField(name) <==> RequiredIndex(name) >= 0
    ensures forall i :: 0 <= i < 5 ==> (RequiredIndex(name) == i <==> name == REQUIRED_TAGS[i])
  {
    forall i | 0 <= i < 5 ensures RequiredIndex(name) == i <==> name == REQUIRED_TAGS[i] {
      TagsAreLiteral(name, i);
    }
    TagsAreLiteral(name, 0);
  }

  lemma FineOpens(ps: seq<Piece>, s: Scanner)
    requires ps != [] && (ps[0].Open? || ps[0].Single?) && StackOk(s.open)
    ensures Fine(ps, s) <==> Put(ps[0], s).Ok? && Fine(ps[1..], Put(ps[0], s).value)
    ensures Put(ps[0], s).Ok? ==> StackOk(Put(ps[0], s).value.open)
  {
    var n := ps[0].name;
    FieldIsRequired(n);
    var index := RequiredIndex(n);
    if Inside(s.open) < 0 {
      if index >= 0 && s.seen[index] {
        assert Starts(ps, REQUIRED_TAGS[index]) >= 1;
      } else {
        var s' := Put(ps[0], s).value;
        assert forall i :: 0 <= i < 5 ==> Met(s', i) == Met(s, i) + Begins(ps[0], REQUIRED_TAGS[i]);
        assert ps[0].Open? ==> Names(s'.open) == Names(s.open) + [n];
      }
    }
  }

  lemma FineElse(ps: seq<Piece>, s: Scanner)
    requires ps != [] && (ps[0].Chars? || ps[0].Close?) && StackOk(s.open)
    ensures Fine(ps, s) <==> Put(ps[0], s).Ok? && Fine(ps[1..], Put(ps[0], s).value)
    ensures Put(ps[0], s).Ok? ==> StackOk(Put(ps[0], s).value.open)
  {
    if Put(ps[0], s).Ok? {
      var s' := Put(ps[0], s).value;
      assert forall i :: 0 <= i < 5 ==> Met(s', i) == Met(s, i) && Begins(ps[0], REQUIRED_TAGS[i]) == 0;
      assert ps[0].Close? ==> Names(s'.open) == Names(s.open)[..|s.open| - 1];
    }
  }

  lemma FineStep(ps: seq<Piece>, s: Scanner)
    requires ps != [] && StackOk(s.open)
    ensures Fine(ps, s) <==> Put(ps[0], s).Ok? && Fine(ps[1..], Put(ps[0], s).value)
    ensures Put(ps[0], s).Ok? ==> StackOk(Put(ps[0], s).value.open)
  {
    if ps[0].Open? || ps[0].Single? {
      FineOpens(ps, s);
    } else {
      FineElse(ps, s);
    }
  }

  lemma {:induction false} PutAllMeans(ps: seq<Piece>, s: Scanner)
    requires StackOk(s.open)
    ensures PutAll(ps, s).Ok? && PutAll(ps, s).value.open == [] <==> Fine(ps, s)
  {
    if ps == [] {
      assert Names(s.open) == [] <==> s.open == [];
    } else {
      FineStep(ps, s);
      if Put(ps[0], s).Ok? {
        PutAllMeans(ps[1..], Put(ps[0], s).value);
      }
    }
  }

  /** What the scanner has of field `i` once it has also gathered what is to come. */
  function Gathered(ps: seq<Piece>, s: Scanner, i: nat): string
    requires i < 5
  {
    s.fields[i] + TextAfter(ps, REQUIRED_TAGS[i], Inside(s.open) == i)
  }

  lemma OpenGathers(ps: seq<Piece>, s: Scanner, i: nat)
    requires ps != [] && (ps[0].Open? || ps[0].Single?) && Put(ps[0], s).Ok? && i < 5
    ensures Gathered(ps[1..], Put(ps[0], s).value, i) == Gathered(ps, s, i)
    ensures Met(Put(ps[0], s).value, i) == Met(s, i) + Begins(ps[0], REQUIRED_TAGS[i])
  {
    TagsAreLiteral(ps[0].name, i);
  }

  lemma ElseGathers(ps: seq<Piece>, s: Scanner, i: nat)
    requires ps != [] && (ps[0].Chars? || ps[0].Close?) && StackOk(s.open) && Put(ps[0], s).Ok? && i < 5
    ensures Gathered(ps[1..], Put(ps[0], s).value, i) == Gathered(ps, s, i)
    ensures Met(Put(ps[0], s).value, i) == Met(s, i) + Begins(ps[0], REQUIRED_TAGS[i])
  {
    if ps[0].Chars? {
      var inside, later := Inside(s.open), TextAfter(ps[1..], REQUIRED_TAGS[i], Inside(s.open) == i);
      assert inside == i ==> s.fields[i] + ps[0].text + later == s.fields[i] + (ps[0].text + later);
      assert "" + later == later;
    }
  }

  /** Field `i` has the text gathered after its start tag, and is met when it begins. */
  lemma {:induction false} PutAllGathers(ps: seq<Piece>, s: Scanner, i: nat)
    requires StackOk(s.open) && Fine(ps, s) && i < 5
    ensures PutAll(ps, s).Ok? && PutAll(ps, s).value.fields[i] == Gathered(ps, s, i)
    ensures Met(PutAll(ps, s).value, i) == Met(s, i) + Starts(ps, REQUIRED_TAGS[i])
  {
    if ps == [] {
      assert s.fields[i] + "" == s.fields[i];
    } else {
      FineStep(ps, s);
      if ps[0].Open? || ps[0].Single? {
        OpenGathers(ps, s, i);
      } else {
        ElseGathers(ps, s, i);
      }
      PutAllGathers(ps[1..], Put(ps[0], s).value, i);
    }
  }

  // ---------------------------------------------------------------------
  // Every text
  // ---------------------------------------------------------------------

  lemma FinishGathers(ps: seq<Piece>, s: Scanner)
    requires s.open == []
    requires forall i :: 0 <= i < 5 ==> s.fields[i] == TextAfter(ps, REQUIRED_TAGS[i], false)
    requires forall i :: 0 <= i < 5 ==> Met(s, i) == Starts(ps, REQUIRED_TAGS[i])
    requires Nested(ps, []) && Alone(ps, false)
    ensures Finish(s).Ok? <==> UsablePieces(ps)
    ensures Finish(s).Ok? ==>
              Finish(s).value
                == [if Starts(ps, "prodname") == 0 then "ATI Net F/T" else ValueIn(ps, "prodname"),
                    ValueIn(ps, "cfgcpf"), ValueIn(ps, "cfgcpt"), ValueIn(ps, "scfgfu"), ValueIn(ps, "scfgtu")]
  {
    TagsAreLiteral("", 0);
    forall i: nat | i < 5
      ensures FieldAt(s, i).Ok? <==> (i == 0 && Starts(ps, REQUIRED_TAGS[i]) == 0) || Stands(ps, REQUIRED_TAGS[i])
    {
    }
  }

  lemma UsableIsFine(ps: seq<Piece>)
    requires UsablePieces(ps)
    ensures Fine(ps, START)
  {
    TagsAreLiteral("", 0);
    assert Names(START.open) == [];
  }

  /** For every text: it is accepted if and only if it can be cut into pieces whose tags
      pair up by name, with the four required names once each, the product name at most
      once, nothing but text inside them, and usable values, which are the fields. */
  lemma {:induction false} AcceptedExactlyWhen(xml: string)
    ensures Extract(xml).Ok? <==> Lex(xml).Pieces? && UsablePieces(Lex(xml).ps)
    ensures Extract(xml).Ok? ==>
              var ps := Lex(xml).ps;
              Extract(xml).value
                == [if Starts(ps, "prodname") == 0 then "ATI Net F/T" else ValueIn(ps, "prodname"),
                    ValueIn(ps, "cfgcpf"), ValueIn(ps, "cfgcpt"), ValueIn(ps, "scfgfu"), ValueIn(ps, "scfgtu")]
  {
    ScanAgrees(xml, START);
    if Lex(xml).Pieces? {
      var ps := Lex(xml).ps;
      PutAllMeans(ps, START);
      if UsablePieces(ps) {
        UsableIsFine(ps);
      }
      if Fine(ps, START) {
        var s := PutAll(ps, START).value;
        forall i: nat | i < 5
          ensures s.fields[i] == TextAfter(ps, REQUIRED_TAGS[i], false)
          ensures Met(s, i) == Starts(ps, REQUIRED_TAGS[i])
        {
          PutAllGathers(ps, START, i);
          assert "" + TextAfter(ps, REQUIRED_TAGS[i], false) == TextAfter(ps, REQUIRED_TAGS[i], false);
        }
        assert Names(START.open) == [];
        FinishGathers(ps, s);
      }
    }
  }
}
