/**
 What the field scanner answers, said without its own tests.

 Trimming is a slice between two blank ends; the fields of a tree are those of the
 elements that carry the five literal names; and every text, printed from a tree or
 not, is accepted exactly when its tags pair up and each name stands where it may.
 */
module XmlMeaning {
  import opened XmlScanner
  import opened XmlDocument

  // ---------------------------------------------------------------------
  // Trimming
  // ---------------------------------------------------------------------

  /** Space, tab, line feed, carriage return, form feed and vertical tab. */
  predicate Blank(c: char) {
    var code := c as int;
    code == 32 || code == 9 || code == 10 || code == 13 || code == 12 || code == 11
  }

  predicate BlankBetween(s: string, i: nat, j: nat) {
    forall k :: i <= k < j <= |s| ==> Blank(s[k])
  }

  /** Outside `s[i..j]` all is blank, and that slice neither begins nor ends so. */
  predicate Cut(s: string, i: nat, j: nat) {
    && i <= j <= |s| && BlankBetween(s, 0, i) && BlankBetween(s, j, |s|)
    && (i < j ==> !Blank(s[i]) && !Blank(s[j - 1]))
  }

  lemma {:induction false} LeftCut(s: string) returns (i: nat)
    ensures i <= |s| && TrimLeft(s) == s[i..] && BlankBetween(s, 0, i) && (i < |s| ==> !Blank(s[i]))
  {
    if s != "" && IsSpace(s[0]) {
      var k := LeftCut(s[1..]);
      i := k + 1;
      assert s[1..][k..] == s[i..];
      forall n | 1 <= n < i ensures Blank(s[n]) {
        assert s[n] == s[1..][n - 1];
      }
    } else {
      i := 0;
      assert s[0..] == s;
    }
  }

  lemma {:induction false} RightCut(s: string) returns (j: nat)
    ensures j <= |s| && TrimRight(s) == s[..j] && BlankBetween(s, j, |s|) && (j > 0 ==> !Blank(s[j - 1]))
  {
    if s != "" && IsSpace(s[|s| - 1]) {
      var init := s[..|s| - 1];
      j := RightCut(init);
      assert init[..j] == s[..j];
      forall n | j <= n < |s| - 1 ensures Blank(s[n]) {
        assert s[n] == init[n];
      }
    } else {
      j := |s|;
      assert s[..j] == s;
    }
  }

  lemma TrimCuts(s: string) returns (i: nat, j: nat)
    ensures Cut(s, i, j) && Trim(s) == s[i..j]
  {
    i := LeftCut(s);
    var k := RightCut(s[i..]);
    j := i + k;
    assert s[i..][..k] == s[i..j];
    forall n | j <= n < |s| ensures Blank(s[n]) {
      assert s[n] == s[i..][n - i];
    }
  }

  lemma CutAgrees(s: string, i: nat, j: nat, i': nat, j': nat)
    requires Cut(s, i, j) && Cut(s, i', j') && i < j
    ensures i' <= i && j <= j'
  {
    assert !Blank(s[i]) && !Blank(s[j - 1]);
  }

  /** Trimming leaves exactly the slice between the longest blank runs at the ends. */
  lemma {:induction false} TrimExactly(s: string, t: string)
    ensures t == Trim(s) <==> exists i: nat, j: nat :: Cut(s, i, j) && t == s[i..j]
  {
    var i, j := TrimCuts(s);
    if i': nat, j': nat :| Cut(s, i', j') && t == s[i'..j'] {
      if i < j {
        CutAgrees(s, i, j, i', j');
      }
      if i' < j' {
        CutAgrees(s, i', j', i, j);
      }
    }
  }

  // ---------------------------------------------------------------------
  // Trees, by name
  // ---------------------------------------------------------------------

  function NamedIn(n: Node, tag: string): seq<Node> {
    match n
    case Element(name, _, _, children, _) => (if name == tag then [n] else []) + Named(children, tag)
    case Empty(name, _, _, _) => if name == tag then [n] else []
    case _ => []
  }

  /** The elements named `tag`, at any depth, in document order. */
  function Named(ns: seq<Node>, tag: string): seq<Node> {
    if ns == [] then [] else NamedIn(ns[0], tag) + Named(ns[1..], tag)
  }

  function Content(n: Node): seq<Node> {
    if n.Element? then n.children else []
  }

  /** The trimmed text standing directly in the first element of that name. */
  function ValueOf(doc: seq<Node>, tag: string): string {
    if Named(doc, tag) == [] then "" else Trim(OwnText(Content(Named(doc, tag)[0])))
  }

  /** There is one element of that name, without elements inside, and its value fits. */
  predicate Holds(doc: seq<Node>, tag: string) {
    |Named(doc, tag)| == 1 && Leafy(Content(Named(doc, tag)[0])) && 1 <= |ValueOf(doc, tag)| <= 128
  }

  function Joined(es: seq<Node>): string {
    if es == [] then "" else OwnText(Content(es[0])) + Joined(es[1..])
  }

  predicate AllLeafy(es: seq<Node>) {
    forall k :: 0 <= k < |es| ==> Leafy(Content(es[k]))
  }

  lemma {:induction false} JoinedSplits(a: seq<Node>, b: seq<Node>)
    ensures Joined(a + b) == Joined(a) + Joined(b)
  {
    if a == [] {
      assert a + b == b;
    } else {
      assert (a + b)[1..] == a[1..] + b;
      JoinedSplits(a[1..], b);
    }
  }

  lemma {:induction false} LeafyHasNoNames(ns: seq<Node>, tag: string)
    requires Leafy(ns)
    ensures Named(ns, tag) == []
  {
    if ns != [] {
      LeafyHasNoNames(ns[1..], tag);
    }
  }

  lemma TagsAreLiteral(name: string, i: nat)
    requires i < 5
    ensures REQUIRED_TAGS[0] == "prodname" && REQUIRED_TAGS[1] == "cfgcpf" && REQUIRED_TAGS[2] == "cfgcpt"
    ensures REQUIRED_TAGS[3] == "scfgfu" && REQUIRED_TAGS[4] == "scfgtu"
    ensures RequiredIndex(name) == i <==> name == REQUIRED_TAGS[i]
  {
    var t := REQUIRED_TAGS;
    assert t[0][0] == 'p' && t[1][0] == 'c' && t[2][0] == 'c' && t[3][0] == 's' && t[4][0] == 's';
    assert t[1][5] == 'f' && t[2][5] == 't' && t[3][4] == 'f' && t[4][4] == 't';
  }

  lemma {:induction false} CountByNameIn(n: Node, i: nat)
    requires i < 5
    ensures CountNode(n, i) == |NamedIn(n, REQUIRED_TAGS[i])|
    decreases n, 1
  {
    if n.Element? {
      TagsAreLiteral(n.name, i);
      CountByName(n.children, i);
    } else if n.Empty? {
      TagsAreLiteral(n.name, i);
    }
  }

  lemma {:induction false} CountByName(ns: seq<Node>, i: nat)
    requires i < 5
    ensures Count(ns, i) == |Named(ns, REQUIRED_TAGS[i])|
    decreases ns
  {
    if ns != [] {
      CountByNameIn(ns[0], i);
      CountByName(ns[1..], i);
    }
  }

  /** Each required element, at any depth, contains no element. */
  ghost predicate FieldsAreLeafy(ns: seq<Node>) {
    forall i :: 0 <= i < 5 ==> AllLeafy(Named(ns, REQUIRED_TAGS[i]))
  }

  lemma {:induction false} TextOnlyByNameIn(n: Node)
    ensures TextOnlyNode(n) <==> forall i :: 0 <= i < 5 ==> AllLeafy(NamedIn(n, REQUIRED_TAGS[i]))
    decreases n, 1
  {
    if n.Element? {
      var index := RequiredIndex(n.name);
      forall i | 0 <= i < 5 ensures index == i <==> n.name == REQUIRED_TAGS[i] {
        TagsAreLiteral(n.name, i);
      }
      if index < 0 {
        TextOnlyByName(n.children);
        assert forall i :: 0 <= i < 5 ==> NamedIn(n, REQUIRED_TAGS[i]) == Named(n.children, REQUIRED_TAGS[i]);
      } else {
        assert NamedIn(n, REQUIRED_TAGS[index])[0] == n;
        if Leafy(n.children) {
          forall i | 0 <= i < 5 ensures AllLeafy(NamedIn(n, REQUIRED_TAGS[i])) {
            LeafyHasNoNames(n.children, REQUIRED_TAGS[i]);
          }
        }
      }
    }
  }

  lemma AllLeafySplits(a: seq<Node>, b: seq<Node>)
    ensures AllLeafy(a + b) <==> AllLeafy(a) && AllLeafy(b)
  {
    if AllLeafy(a + b) {
      forall k | 0 <= k < |a| ensures Leafy(Content(a[k])) {
        assert (a + b)[k] == a[k];
      }
      forall k | 0 <= k < |b| ensures Leafy(Content(b[k])) {
        assert (a + b)[|a| + k] == b[k];
      }
    }
  }

  lemma {:induction false} TextOnlyByName(ns: seq<Node>)
    ensures TextOnly(ns) <==> FieldsAreLeafy(ns)
    decreases ns
  {
    if ns != [] {
      TextOnlyByNameIn(ns[0]);
      TextOnlyByName(ns[1..]);
      forall i | 0 <= i < 5
        ensures AllLeafy(Named(ns, REQUIRED_TAGS[i])) <==>
                AllLeafy(NamedIn(ns[0], REQUIRED_TAGS[i])) && AllLeafy(Named(ns[1..], REQUIRED_TAGS[i]))
      {
        AllLeafySplits(NamedIn(ns[0], REQUIRED_TAGS[i]), Named(ns[1..], REQUIRED_TAGS[i]));
      }
    }
  }

  lemma {:induction false} TextByNameIn(n: Node, i: nat)
    requires i < 5 && TextOnlyNode(n)
    ensures FieldTextNode(n, i) == Joined(NamedIn(n, REQUIRED_TAGS[i]))
    decreases n, 1
  {
    if n.Element? {
      TagsAreLiteral(n.name, i);
      if RequiredIndex(n.name) >= 0 {
        LeafyHasNoNames(n.children, REQUIRED_TAGS[i]);
        LeafyHasNoFields(n.children, i);
      } else {
        assert NamedIn(n, REQUIRED_TAGS[i]) == Named(n.children, REQUIRED_TAGS[i]);
        TextByName(n.children, i);
      }
    } else if n.Empty? {
      assert Joined([n]) == "";
    }
  }

  lemma {:induction false} TextByName(ns: seq<Node>, i: nat)
    requires i < 5 && TextOnly(ns)
    ensures FieldText(ns, i) == Joined(Named(ns, REQUIRED_TAGS[i]))
    decreases ns
  {
    if ns != [] {
      TextByNameIn(ns[0], i);
      TextByName(ns[1..], i);
      JoinedSplits(NamedIn(ns[0], REQUIRED_TAGS[i]), Named(ns[1..], REQUIRED_TAGS[i]));
    }
  }

  lemma {:induction false} FieldByName(doc: seq<Node>, i: nat)
    requires i < 5 && TextOnly(doc) && |Named(doc, REQUIRED_TAGS[i])| == 1
    ensures Trim(FieldText(doc, i)) == ValueOf(doc, REQUIRED_TAGS[i])
  {
    TextByName(doc, i);
    var es := Named(doc, REQUIRED_TAGS[i]);
    assert es == [es[0]] && Joined(es[1..]) == "";
    assert OwnText(Content(es[0])) + "" == OwnText(Content(es[0]));
  }

  /** One field: what the index counts and collects is what the name finds. */
  lemma {:induction false} OneFieldByName(doc: seq<Node>, i: nat)
    requires i < 5 && TextOnly(doc)
    ensures Count(doc, i) == |Named(doc, REQUIRED_TAGS[i])|
    ensures Holds(doc, REQUIRED_TAGS[i]) <==>
              Count(doc, i) == 1 && 1 <= |Trim(FieldText(doc, i))| <= MAXIMUM_FIELD_LENGTH
  {
    CountByName(doc, i);
    if Count(doc, i) == 1 {
      FieldByName(doc, i);
      TextOnlyByName(doc);
      assert AllLeafy(Named(doc, REQUIRED_TAGS[i]));
    }
  }

  /** The four required fields hold, and the product name holds or is not there. */
  ghost predicate FieldsHold(doc: seq<Node>) {
    forall i :: 0 <= i < 5 ==> Holds(doc, REQUIRED_TAGS[i]) || (i == 0 && Named(doc, REQUIRED_TAGS[i]) == [])
  }

  lemma HoldingIsTextOnly(doc: seq<Node>)
    requires FieldsHold(doc)
    ensures TextOnly(doc)
  {
    forall i | 0 <= i < 5 ensures AllLeafy(Named(doc, REQUIRED_TAGS[i])) {
      assert Holds(doc, REQUIRED_TAGS[i]) || Named(doc, REQUIRED_TAGS[i]) == [];
    }
    TextOnlyByName(doc);
  }

  lemma {:induction false} AcceptableByName(doc: seq<Node>)
    ensures Acceptable(doc) <==> FieldsHold(doc)
  {
    if FieldsHold(doc) {
      HoldingIsTextOnly(doc);
    }
    if TextOnly(doc) {
      forall i: nat | i < 5
        ensures Count(doc, i) == |Named(doc, REQUIRED_TAGS[i])|
        ensures Holds(doc, REQUIRED_TAGS[i]) <==>
                  Count(doc, i) == 1 && 1 <= |Trim(FieldText(doc, i))| <= MAXIMUM_FIELD_LENGTH
      {
        OneFieldByName(doc, i);
      }
    }
  }

  lemma FieldsByName(doc: seq<Node>)
    requires Acceptable(doc)
    ensures FieldOf(doc, 0) == if Named(doc, "prodname") == [] then "ATI Net F/T" else ValueOf(doc, "prodname")
    ensures FieldOf(doc, 1) == ValueOf(doc, "cfgcpf") && FieldOf(doc, 2) == ValueOf(doc, "cfgcpt")
    ensures FieldOf(doc, 3) == ValueOf(doc, "scfgfu") && FieldOf(doc, 4) == ValueOf(doc, "scfgtu")
  {
    TagsAreLiteral("", 0);
    forall i: nat | i < 5
      ensures FieldOf(doc, i) == if Named(doc, REQUIRED_TAGS[i]) == [] then DEFAULT_NAME
                                 else ValueOf(doc, REQUIRED_TAGS[i])
      ensures i > 0 ==> Named(doc, REQUIRED_TAGS[i]) != []
    {
      CountByName(doc, i);
      if Count(doc, i) == 1 {
        FieldByName(doc, i);
      }
    }
  }

  /** The same, with the names written out. */
  ghost predicate Usable(doc: seq<Node>) {
    && Holds(doc, "cfgcpf") && Holds(doc, "cfgcpt") && Holds(doc, "scfgfu") && Holds(doc, "scfgtu")
    && (Named(doc, "prodname") == [] || Holds(doc, "prodname"))
  }

  lemma UsableByName(doc: seq<Node>)
    ensures Acceptable(doc) <==> Usable(doc)
  {
    AcceptableByName(doc);
    TagsAreLiteral("", 0);
  }

  /** For every printable document: its text is accepted if and only if each of the four
      required names is carried by exactly one usable element and the product name by at
      most one, and the fields are the values of the elements so named. */
  lemma {:induction false} RoundTripByName(doc: seq<Node>)
    requires NodesOk(doc)
    ensures Extract(Print(doc)).Ok? <==> Usable(doc)
    ensures
      Extract(Print(doc)).Ok? ==>
        Extract(Print(doc)).value
          == [if Named(doc, "prodname") == [] then "ATI Net F/T" else ValueOf(doc, "prodname"),
              ValueOf(doc, "cfgcpf"), ValueOf(doc, "cfgcpt"), ValueOf(doc, "scfgfu"), ValueOf(doc, "scfgtu")]
  {
    RoundTrip(doc);
    UsableByName(doc);
    if Acceptable(doc) {
      FieldsByName(doc);
    }
  }
}
