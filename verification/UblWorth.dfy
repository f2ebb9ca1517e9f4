/** What a report makes of the documents the generator prints: the names it searches for carry no name-space prefix. */
module UblWorth {
  import opened XmlText
  import opened XmlTree
  import opened XmlWire
  import opened UblModel
  import opened UblGenerator
  import opened UblWire
  import opened ReportTotals

  // ----- tags of a written tree

  /** Texts that meet at the start of a tag. */
  lemma NowhereJoined(a: string, b: string, name: string)
    requires Nowhere(a, name) && Nowhere(b, name) && '<' !in name && (b == "" || b[0] == '<')
    ensures Nowhere(a + b, name)
  {
    forall i | 0 <= i <= |a + b| ensures !("<" + name <= (a + b)[i..]) {
      if i >= |a| {
        assert (a + b)[i..] == b[i - |a|..];
      } else {
        assert (a + b)[i..] == a[i..] + b;
        NotAcross(a[i..], b, name);
      }
    }
  }

  lemma NotAcross(a: string, b: string, name: string)
    requires a != "" && !("<" + name <= a) && '<' !in name && (b == "" || b[0] == '<')
    ensures !("<" + name <= a + b)
  {
    assert |name| >= |a| ==> ("<" + name)[|a|] in name;
  }

  lemma NotBehind(body: string, name: string)
    requires !(name <= body)
    ensures !("<" + name <= "<" + body)
  {
    assert |name| <= |body| ==> ("<" + body)[..|name| + 1] == "<" + body[..|name|];
    assert ("<" + name)[1..] == name && ("<" + body[..|body|])[1..] == body;
  }

  /** A single tag with the text behind it. */
  lemma NowhereTag(body: string, name: string)
    requires '<' !in body && !(name <= body)
    ensures Nowhere("<" + body, name)
  {
    var s := "<" + body;
    forall i | 0 <= i <= |s| ensures !("<" + name <= s[i..]) {
      if i == 0 {
        NotBehind(body, name);
        assert s[0..] == s;
      } else {
        assert i < |s| ==> s[i] == body[i - 1] && s[i] in body;
      }
    }
  }

  /** A name that begins no spelling. */
  ghost predicate Unspelled(sp: Spelling, name: string) {
    NameText(name) && forall n: Name :: !(name <= sp.tag(n))
  }

  lemma NotInTag(tag: string, rest: string, name: string)
    requires NameText(name) && !(name <= tag) && rest != "" && !NameChar(rest[0])
    ensures !(name <= tag + rest)
  {
    assert |name| > |tag| ==> name[|tag|] in name;
  }

  lemma {:induction false} AttrsClean(sp: Spelling, attrs: seq<Attr>)
    requires Distinct(sp) && WritableAttrs(attrs)
    ensures '<' !in AttrsText(sp, attrs) && (attrs != [] ==> AttrsText(sp, attrs) != "" && AttrsText(sp, attrs)[0] == ' ')
  {
    if attrs != [] {
      AttrsClean(sp, attrs[1..]);
      assert attrs[0] in attrs && NameText(sp.attr(attrs[0].name));
    }
  }

  lemma StartNowhere(sp: Spelling, tag: Name, attrs: seq<Attr>, raw: string, name: string)
    requires Distinct(sp) && Unspelled(sp, name) && WritableAttrs(attrs) && '<' !in raw
    ensures Nowhere("<" + (sp.tag(tag) + (AttrsText(sp, attrs) + ">" + raw)), name)
  {
    hide Nowhere;
    AttrsClean(sp, attrs);
    assert NameText(sp.tag(tag));
    var rest := AttrsText(sp, attrs) + ">" + raw;
    NotInTag(sp.tag(tag), rest, name);
    NowhereTag(sp.tag(tag) + rest, name);
  }

  lemma EndNowhere(sp: Spelling, tag: Name, name: string)
    requires Distinct(sp) && NameText(name)
    ensures Nowhere(EndTag(sp, tag), name)
  {
    assert NameText(sp.tag(tag)) && name[0] in name;
    var body := "/" + sp.tag(tag) + ">";
    NowhereTag(body, name);
    assert EndTag(sp, tag) == "<" + body;
  }

  lemma WriteParts(sp: Spelling, e: Xml)
    ensures Write(sp, e)
      == "<" + (sp.tag(e.tag) + (AttrsText(sp, e.attrs) + ">" + e.raw)) + (KidsText(sp, e.kids) + EndTag(sp, e.tag))
  {
    hide AttrsText, KidsText, EndTag;
  }

  lemma KidsBegin(sp: Spelling, kids: seq<Xml>)
    ensures KidsText(sp, kids) == "" || KidsText(sp, kids)[0] == '<'
  {
  }

  /** No tag of a written tree begins with a name that begins no spelling. */
  lemma {:induction false} WrittenNowhere(sp: Spelling, e: Xml, name: string)
    requires Distinct(sp) && Unspelled(sp, name) && Writable(e)
    ensures Nowhere(Write(sp, e), name)
    decreases e
  {
    hide Nowhere, Distinct, Unspelled, AttrsText, Write, KidsText, EndTag;
    WriteParts(sp, e);
    NameClean(sp, name);
    StartNowhere(sp, e.tag, e.attrs, e.raw, name);
    KidsNowhere(sp, e.kids, name);
    EndNowhere(sp, e.tag, name);
    KidsBegin(sp, e.kids);
    EndBegins(sp, e.tag);
    NowhereJoined(KidsText(sp, e.kids), EndTag(sp, e.tag), name);
    NowhereJoined("<" + (sp.tag(e.tag) + (AttrsText(sp, e.attrs) + ">" + e.raw)), KidsText(sp, e.kids) + EndTag(sp, e.tag), name);
  }

  lemma {:induction false} KidsNowhere(sp: Spelling, kids: seq<Xml>, name: string)
    requires Distinct(sp) && Unspelled(sp, name) && AllWritable(kids)
    ensures Nowhere(KidsText(sp, kids), name)
    decreases kids
  {
    hide Nowhere, Distinct, Unspelled, Write, Writable;
    if kids == [] {
      EmptyNowhere(name);
    } else {
      assert kids[0] in kids;
      WrittenNowhere(sp, kids[0], name);
      KidsNowhere(sp, kids[1..], name);
      KidsBegin(sp, kids[1..]);
      NameClean(sp, name);
      NowhereJoined(Write(sp, kids[0]), KidsText(sp, kids[1..]), name);
    }
  }

  lemma EmptyNowhere(name: string)
    ensures Nowhere("", name)
  {
  }

  lemma EndBegins(sp: Spelling, tag: Name)
    ensures EndTag(sp, tag) != "" && EndTag(sp, tag)[0] == '<'
  {
  }

  lemma NameClean(sp: Spelling, name: string)
    requires Unspelled(sp, name)
    ensures '<' !in name && NameText(name)
  {
  }

  // ----- the documents

  /** As in the documents, where both are behind a prefix. */
  ghost predicate Prefixed(sp: Spelling) {
    Unspelled(sp, OUTER) && Unspelled(sp, PAYABLE) && Unspelled(sp, LINES)
  }

  /** For a report every document the generator prints is worth nothing, whatever its totals are. */
  lemma GeneratedWorthNothing(sp: Spelling, data: Invoice, creditNote: bool)
    requires Distinct(sp) && Prefixed(sp) && PlainCurrency(data)
    ensures MonetaryTotal(Write(sp, BuildDocument(data, creditNote))) == 0.0
  {
    hide Nowhere, Distinct, Unspelled, Write, BuildDocument, Writable, PlainCurrency, MonetaryTotal;
    var e := BuildDocument(data, creditNote);
    DocumentWritable(data, creditNote);
    WrittenNowhere(sp, e, OUTER);
    WrittenNowhere(sp, e, PAYABLE);
    WrittenNowhere(sp, e, LINES);
    WorthNothing(Write(sp, e));
  }
}
