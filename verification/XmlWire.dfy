/**
 * Element trees as text, and reading them back: start tags with quoted attributes, character data, children and end tags
 * (sections 2.3, 2.4 and 3.1 of XML 1.0). How names are spelled is a parameter.
 */
module XmlWire {
  import opened Options
  import opened Strings
  import opened XmlText
  import opened XmlTree

  predicate NameChar(c: char) {
    c != ' ' && c != '=' && c != '>' && c != '/' && c != '<' && c != '"'
  }

  predicate NameText(s: string) {
    s != "" && forall c <- s :: NameChar(c)
  }

  /** The text of every name. */
  datatype Spelling = Spelling(tag: Name -> string, attr: AttrName -> string)

  /** Names are spelled with name characters, and no two alike. */
  ghost predicate Distinct(sp: Spelling) {
    && (forall n :: NameText(sp.tag(n))) && (forall a :: NameText(sp.attr(a)))
    && (forall m, n :: sp.tag(m) == sp.tag(n) ==> m == n)
    && (forall a, b :: sp.attr(a) == sp.attr(b) ==> a == b)
  }

  // ----- writing

  function AttrsText(sp: Spelling, attrs: seq<Attr>): string {
    if attrs == [] then "" else " " + sp.attr(attrs[0].name) + "=\"" + attrs[0].raw + "\"" + AttrsText(sp, attrs[1..])
  }

  function KidsText(sp: Spelling, kids: seq<Xml>): string
    decreases kids
  {
    if kids == [] then "" else Write(sp, kids[0]) + KidsText(sp, kids[1..])
  }

  function EndTag(sp: Spelling, tag: Name): string {
    "</" + sp.tag(tag) + ">"
  }

  function Write(sp: Spelling, e: Xml): string
    decreases e
  {
    "<" + sp.tag(e.tag) + AttrsText(sp, e.attrs) + ">" + e.raw + KidsText(sp, e.kids) + EndTag(sp, e.tag)
  }

  // ----- which trees can be written

  predicate WritableAttrs(attrs: seq<Attr>) {
    forall a <- attrs :: MarkFree(a.raw)
  }

  /** No raw text has a `<` in it and no raw attribute a `<` or a quote. */
  predicate Writable(e: Xml) {
    '<' !in e.raw && WritableAttrs(e.attrs) && forall k <- e.kids :: Writable(k)
  }

  predicate AllWritable(kids: seq<Xml>) {
    forall k <- kids :: Writable(k)
  }

  // ----- reading

  datatype Scan<T> = Scan(value: T, rest: string)

  /** The name characters at the start. */
  function Word(s: string): (w: string)
    ensures w <= s
  {
    if s != "" && NameChar(s[0]) then [s[0]] + Word(s[1..]) else ""
  }

  ghost function TagOf(sp: Spelling, s: string): Option<Name> {
    if exists n :: sp.tag(n) == s then
      var n :| sp.tag(n) == s; Some(n)
    else None
  }

  ghost function AttrOf(sp: Spelling, s: string): Option<AttrName> {
    if exists a :: sp.attr(a) == s then
      var a :| sp.attr(a) == s; Some(a)
    else None
  }

  /** Attributes up to the end of the start tag; a value ends at the first quote and has no `<` in it. */
  ghost function ReadAttrs(sp: Spelling, s: string): (r: Option<Scan<seq<Attr>>>)
    ensures r.Some? ==> |r.value.rest| <= |s|
    decreases |s|
  {
    if s == "" || s[0] != ' ' then Some(Scan([], s))
    else
      var name := Word(s[1..]);
      var t := s[1 + |name|..];
      if !("=\"" <= t) || '"' !in t[2..] || '<' in Before(t[2..], '"') then None
      else
        SplitAt(t[2..], '"');
        match (AttrOf(sp, name), ReadAttrs(sp, After(t[2..], '"')))
        case (Some(a), Some(more)) => Some(Scan([Attr(a, Before(t[2..], '"'))] + more.value, more.rest))
        case _ => None
  }

  /** A start tag: the name and the attributes. */
  ghost function ReadStart(sp: Spelling, s: string): (r: Option<Scan<(Name, seq<Attr>)>>)
    ensures r.Some? ==> |r.value.rest| < |s|
  {
    if s == "" || s[0] != '<' then None
    else
      var name := Word(s[1..]);
      match (TagOf(sp, name), ReadAttrs(sp, s[1 + |name|..]))
      case (Some(tag), Some(attrs)) =>
        if attrs.rest != "" && attrs.rest[0] == '>' then Some(Scan((tag, attrs.value), attrs.rest[1..])) else None
      case _ => None
  }

  /** An element: start tag, character data up to the next `<`, children, and the end tag of the same name. */
  ghost function ReadElement(sp: Spelling, s: string): (r: Option<Scan<Xml>>)
    ensures r.Some? ==> |r.value.rest| < |s|
    decreases |s|, 0
  {
    match ReadStart(sp, s)
    case None => None
    case Some(start) =>
      if '<' !in start.rest then None
      else
        SplitAt(start.rest, '<');
        var raw := Before(start.rest, '<');
        match ReadKids(sp, start.rest[|raw|..])
        case None => None
        case Some(kids) =>
          var close := EndTag(sp, start.value.0);
          if close <= kids.rest then Some(Scan(Elem(start.value.0, start.value.1, kids.value, raw), kids.rest[|close|..])) else None
  }

  /** Children up to an end tag. */
  ghost function ReadKids(sp: Spelling, s: string): (r: Option<Scan<seq<Xml>>>)
    ensures r.Some? ==> |r.value.rest| <= |s|
    decreases |s|, 1
  {
    if "</" <= s then Some(Scan([], s))
    else
      match ReadElement(sp, s)
      case None => None
      case Some(kid) =>
        match ReadKids(sp, kid.rest)
        case None => None
        case Some(more) => Some(Scan([kid.value] + more.value, more.rest))
  }

  /** A whole document. */
  ghost function ReadDocument(sp: Spelling, s: string): Option<Xml> {
    match ReadElement(sp, s)
    case None => None
    case Some(e) => if e.rest == "" then Some(e.value) else None
  }

  // ----- what was written is read

  lemma {:induction false} WordStops(name: string, rest: string)
    requires (forall c <- name :: NameChar(c)) && rest != "" && !NameChar(rest[0])
    ensures Word(name + rest) == name
  {
    if name == "" {
      assert name + rest == rest;
    } else {
      assert (name + rest)[0] == name[0] && (name + rest)[1..] == name[1..] + rest;
      WordStops(name[1..], rest);
      assert [name[0]] + name[1..] == name;
    }
  }

  lemma TagBack(sp: Spelling, n: Name)
    requires Distinct(sp)
    ensures TagOf(sp, sp.tag(n)) == Some(n)
  {
  }

  lemma AttrBack(sp: Spelling, a: AttrName)
    requires Distinct(sp)
    ensures AttrOf(sp, sp.attr(a)) == Some(a)
  {
  }

  /** One attribute: reading stops at the first quote. */
  lemma ReadOneAttr(sp: Spelling, a: AttrName, v: string, q: string)
    requires Distinct(sp) && MarkFree(v)
    ensures ReadAttrs(sp, " " + sp.attr(a) + "=\"" + v + "\"" + q) == match ReadAttrs(sp, q) {
      case None => None
      case Some(more) => Some(Scan([Attr(a, v)] + more.value, more.rest)) }
  {
    hide ReadAttrs;
    var name, u := sp.attr(a), v + "\"" + q;
    assert NameText(name);
    WordStops(name, "=\"" + u);
    AttrBack(sp, a);
    ValueStops(v, q);
    AttrStep(sp, name, u);
    ValueShape(name, v, q);
  }

  lemma ValueShape(name: string, v: string, q: string)
    ensures " " + name + "=\"" + v + "\"" + q == " " + (name + ("=\"" + (v + "\"" + q)))
  {
  }

  lemma ValueStops(v: string, q: string)
    requires MarkFree(v)
    ensures var u := v + "\"" + q; '"' in u && Before(u, '"') == v && After(u, '"') == q
  {
    SplitParts(v, '"', "\"" + q);
    assert v + ("\"" + q) == v + "\"" + q;
    assert ("\"" + q)[1..] == q;
    assert '"' in "\"" + q;
  }

  /** One step of the scan, with the name and what follows it. */
  lemma AttrStep(sp: Spelling, name: string, u: string)
    requires Word(name + ("=\"" + u)) == name
    ensures ReadAttrs(sp, " " + (name + ("=\"" + u))) ==
      if '"' !in u || '<' in Before(u, '"') then None
      else
        match (AttrOf(sp, name), ReadAttrs(sp, After(u, '"')))
        case (Some(a), Some(more)) => Some(Scan([Attr(a, Before(u, '"'))] + more.value, more.rest))
        case _ => None
  {
    hide Word, AttrOf, Before, After;
    var t := "=\"" + u;
    var s := " " + (name + t);
    assert s[0] == ' ' && s[1..] == name + t;
    assert s[1 + |name|..] == t && "=\"" <= t && t[2..] == u;
  }

  lemma {:induction false} AttrsBack(sp: Spelling, attrs: seq<Attr>, rest: string)
    requires Distinct(sp) && WritableAttrs(attrs) && rest != "" && rest[0] == '>'
    ensures ReadAttrs(sp, AttrsText(sp, attrs) + rest) == Some(Scan(attrs, rest))
  {
    hide ReadAttrs, MarkFree, Distinct;
    if attrs == [] {
      assert AttrsText(sp, attrs) + rest == rest;
      NoAttrsBack(sp, rest);
    } else {
      var a, q := attrs[0], AttrsText(sp, attrs[1..]) + rest;
      assert attrs[0] in attrs;
      AttrsBack(sp, attrs[1..], rest);
      ReadOneAttr(sp, a.name, a.raw, q);
      AttrShape(" " + sp.attr(a.name) + "=\"" + a.raw + "\"", AttrsText(sp, attrs[1..]), rest);
      assert [Attr(a.name, a.raw)] + attrs[1..] == attrs;
    }
  }

  lemma AttrShape(a: string, b: string, c: string)
    ensures (a + b) + c == a + (b + c)
  {
  }

  lemma NoAttrsBack(sp: Spelling, rest: string)
    requires rest != "" && rest[0] != ' '
    ensures ReadAttrs(sp, rest) == Some(Scan([], rest))
  {
  }

  function StartText(sp: Spelling, tag: Name, attrs: seq<Attr>): string {
    "<" + sp.tag(tag) + AttrsText(sp, attrs) + ">"
  }

  lemma AttrsFirst(sp: Spelling, attrs: seq<Attr>, rest: string)
    requires rest != "" && rest[0] == '>'
    ensures var s := AttrsText(sp, attrs) + rest; s != "" && (s[0] == ' ' || s[0] == '>')
  {
  }

  lemma StartBack(sp: Spelling, tag: Name, attrs: seq<Attr>, rest: string)
    requires Distinct(sp) && WritableAttrs(attrs)
    ensures ReadStart(sp, StartText(sp, tag, attrs) + rest) == Some(Scan((tag, attrs), rest))
  {
    hide ReadAttrs, AttrsText, WritableAttrs;
    var name, t := sp.tag(tag), AttrsText(sp, attrs) + (">" + rest);
    var s := StartText(sp, tag, attrs) + rest;
    assert s == "<" + (name + t);
    assert s[1..] == name + t;
    AttrsFirst(sp, attrs, ">" + rest);
    assert NameText(name);
    WordStops(name, t);
    assert s[1 + |name|..] == t;
    AttrsBack(sp, attrs, ">" + rest);
    TagBack(sp, tag);
    assert (">" + rest)[1..] == rest;
  }

  /** The body of an element, its children and its end tag. */
  lemma BodyBack(sp: Spelling, tag: Name, attrs: seq<Attr>, raw: string, body: string)
    requires Distinct(sp) && WritableAttrs(attrs) && '<' !in raw && body != "" && body[0] == '<'
    ensures ReadElement(sp, StartText(sp, tag, attrs) + (raw + body)) == match ReadKids(sp, body) {
      case None => None
      case Some(kids) =>
        if EndTag(sp, tag) <= kids.rest then Some(Scan(Elem(tag, attrs, kids.value, raw), kids.rest[|EndTag(sp, tag)|..])) else None }
  {
    hide ReadStart, ReadKids, StartText, EndTag;
    StartBack(sp, tag, attrs, raw + body);
    SplitParts(raw, '<', body);
    assert (raw + body)[|raw|] == '<';
    assert (raw + body)[|raw|..] == body;
  }

  lemma WriteShape(sp: Spelling, e: Xml, rest: string)
    ensures Write(sp, e) + rest == StartText(sp, e.tag, e.attrs) + (e.raw + (KidsText(sp, e.kids) + (EndTag(sp, e.tag) + rest)))
  {
    hide KidsText, AttrsText, EndTag;
    FlatText(StartText(sp, e.tag, e.attrs), e.raw, KidsText(sp, e.kids), EndTag(sp, e.tag), rest);
  }

  lemma FlatText(a: string, b: string, c: string, d: string, e: string)
    ensures a + b + c + d + e == a + (b + (c + (d + e)))
  {
  }

  /** An element's text starts like a start tag, not like an end tag. */
  lemma WriteStarts(sp: Spelling, e: Xml, rest: string)
    requires Distinct(sp)
    ensures var s := Write(sp, e) + rest; |s| >= 2 && s[0] == '<' && s[1] != '/'
  {
    hide KidsText, AttrsText, EndTag;
    var name := sp.tag(e.tag);
    assert NameText(name) && name[0] in name;
    assert (Write(sp, e) + rest)[1] == name[0];
  }

  lemma EndStarts(sp: Spelling, tag: Name, rest: string)
    ensures "</" <= EndTag(sp, tag) + rest && EndTag(sp, tag) <= EndTag(sp, tag) + rest
    ensures (EndTag(sp, tag) + rest)[|EndTag(sp, tag)|..] == rest
  {
  }

  lemma KidsStart(sp: Spelling, kids: seq<Xml>, rest: string)
    requires Distinct(sp) && "</" <= rest
    ensures var s := KidsText(sp, kids) + rest; s != "" && s[0] == '<'
  {
    hide Write;
    if kids == [] {
      assert KidsText(sp, kids) + rest == rest;
      assert rest[0] == "</"[0];
    } else {
      WriteStarts(sp, kids[0], KidsText(sp, kids[1..]) + rest);
      AttrShape(Write(sp, kids[0]), KidsText(sp, kids[1..]), rest);
    }
  }

  lemma NoKidsBack(sp: Spelling, rest: string)
    requires "</" <= rest
    ensures ReadKids(sp, rest) == Some(Scan([], rest))
  {
  }

  lemma OneKidBack(sp: Spelling, s: string, kid: Xml, r: string)
    requires |s| >= 2 && s[1] != '/' && ReadElement(sp, s) == Some(Scan(kid, r))
    ensures ReadKids(sp, s) == match ReadKids(sp, r) { case None => None case Some(more) => Some(Scan([kid] + more.value, more.rest)) }
  {
    hide ReadElement;
    assert "</"[1] == '/';
  }

  lemma {:induction false} ElementBack(sp: Spelling, e: Xml, rest: string)
    requires Distinct(sp) && Writable(e)
    ensures ReadElement(sp, Write(sp, e) + rest) == Some(Scan(e, rest))
    decreases e
  {
    hide ReadElement, ReadKids, StartText, EndTag, Distinct, Write, KidsText;
    var end := EndTag(sp, e.tag) + rest;
    EndStarts(sp, e.tag, rest);
    KidsBack(sp, e.kids, end);
    WriteShape(sp, e, rest);
    KidsStart(sp, e.kids, end);
    BodyBack(sp, e.tag, e.attrs, e.raw, KidsText(sp, e.kids) + end);
  }

  lemma {:induction false} KidsBack(sp: Spelling, kids: seq<Xml>, rest: string)
    requires Distinct(sp) && AllWritable(kids) && "</" <= rest
    ensures ReadKids(sp, KidsText(sp, kids) + rest) == Some(Scan(kids, rest))
    decreases kids
  {
    hide ReadElement, ReadKids, Distinct, Write, Writable;
    if kids == [] {
      assert KidsText(sp, kids) + rest == rest;
      NoKidsBack(sp, rest);
    } else {
      var tail := KidsText(sp, kids[1..]) + rest;
      assert kids[0] in kids;
      ElementBack(sp, kids[0], tail);
      KidsBack(sp, kids[1..], rest);
      WriteStarts(sp, kids[0], tail);
      AttrShape(Write(sp, kids[0]), KidsText(sp, kids[1..]), rest);
      OneKidBack(sp, Write(sp, kids[0]) + tail, kids[0], tail);
      assert [kids[0]] + kids[1..] == kids;
    }
  }

  // ----- what is read can be written

  lemma {:induction false} AttrsRead(sp: Spelling, s: string)
    ensures ReadAttrs(sp, s).Some? ==> WritableAttrs(ReadAttrs(sp, s).value.value)
    decreases |s|
  {
    if s != "" && s[0] == ' ' && ReadAttrs(sp, s).Some? {
      var t := s[1 + |Word(s[1..])|..];
      SplitAt(t[2..], '"');
      AttrsRead(sp, After(t[2..], '"'));
    }
  }

  lemma StartRead(sp: Spelling, s: string)
    ensures ReadStart(sp, s).Some? ==> WritableAttrs(ReadStart(sp, s).value.value.1)
  {
    if s != "" && s[0] == '<' {
      AttrsRead(sp, s[1 + |Word(s[1..])|..]);
    }
  }

  lemma {:induction false} ElementRead(sp: Spelling, s: string)
    ensures ReadElement(sp, s).Some? ==> Writable(ReadElement(sp, s).value.value)
    decreases |s|, 0
  {
    hide ReadStart, WritableAttrs, EndTag;
    StartRead(sp, s);
    if ReadElement(sp, s).Some? {
      var start := ReadStart(sp, s).value;
      SplitAt(start.rest, '<');
      KidsRead(sp, start.rest[|Before(start.rest, '<')|..]);
    }
  }

  lemma {:induction false} KidsRead(sp: Spelling, s: string)
    ensures ReadKids(sp, s).Some? ==> AllWritable(ReadKids(sp, s).value.value)
    decreases |s|, 1
  {
    hide ReadElement, Writable;
    if !("</" <= s) && ReadElement(sp, s).Some? {
      ElementRead(sp, s);
      KidsRead(sp, ReadElement(sp, s).value.rest);
    }
  }

  /** A tree comes back from its text if and only if no raw text has a `<` in it and no raw attribute a `<` or a quote. */
  lemma WrittenBack(sp: Spelling, e: Xml)
    requires Distinct(sp)
    ensures ReadDocument(sp, Write(sp, e)) == Some(e) <==> Writable(e)
  {
    hide ReadElement, Write, Distinct, Writable;
    ElementRead(sp, Write(sp, e));
    if Writable(e) {
      ElementBack(sp, e, "");
      assert Write(sp, e) + "" == Write(sp, e);
    }
  }

  // ----- what cannot be read at all

  /** A raw value whose first quote ends the attribute where neither another one nor the end of the tag can follow. */
  predicate Broken(v: string) {
    '"' in v && '<' !in Before(v, '"') && var q := After(v, '"'); q == "" || (q[0] != ' ' && q[0] != '>')
  }

  lemma BrokenAttr(sp: Spelling, a: AttrName, v: string, rest: string)
    requires Distinct(sp) && Broken(v)
    ensures var s := " " + sp.attr(a) + "=\"" + v + "\"" + rest; ReadAttrs(sp, s).Some? ==>
      var r := ReadAttrs(sp, s).value.rest; r != "" && r[0] != '>'
  {
    hide ReadAttrs;
    var p, q := Before(v, '"'), After(v, '"');
    SplitAt(v, '"');
    ReadOneAttr(sp, a, p, q + "\"" + rest);
    QuoteShape(" " + sp.attr(a) + "=\"", p, q, rest);
    assert (q + "\"" + rest)[0] == if q == "" then '"' else q[0];
    NoAttrsBack(sp, q + "\"" + rest);
  }

  lemma QuoteShape(x: string, p: string, q: string, rest: string)
    ensures x + (p + ['"'] + q) + "\"" + rest == x + p + "\"" + (q + "\"" + rest)
  {
  }

  /** An element with one such attribute is not read, whatever follows it. */
  lemma BrokenElement(sp: Spelling, e: Xml, rest: string)
    requires Distinct(sp) && |e.attrs| == 1 && Broken(e.attrs[0].raw)
    ensures ReadElement(sp, Write(sp, e) + rest) == None
  {
    hide ReadAttrs, KidsText, Distinct, Broken, EndTag;
    var name, a := sp.tag(e.tag), e.attrs[0];
    var t := ">" + e.raw + KidsText(sp, e.kids) + EndTag(sp, e.tag) + rest;
    assert e.attrs[1..] == [];
    assert AttrsText(sp, e.attrs[1..]) == "";
    BrokenAttr(sp, a.name, a.raw, t);
    BrokenStart(sp, e.tag, " " + sp.attr(a.name) + "=\"" + a.raw + "\"" + t);
    BrokenShape(name, " " + sp.attr(a.name) + "=\"" + a.raw + "\"", e.raw, KidsText(sp, e.kids), EndTag(sp, e.tag), rest);
  }

  lemma BrokenShape(name: string, attrs: string, raw: string, kids: string, end: string, rest: string)
    ensures "<" + name + (attrs + "") + ">" + raw + kids + end + rest == "<" + (name + (attrs + (">" + raw + kids + end + rest)))
  {
  }

  lemma BrokenStart(sp: Spelling, tag: Name, t: string)
    requires Distinct(sp) && t != "" && t[0] == ' '
    requires ReadAttrs(sp, t).Some? ==> ReadAttrs(sp, t).value.rest != "" && ReadAttrs(sp, t).value.rest[0] != '>'
    ensures ReadStart(sp, "<" + (sp.tag(tag) + t)) == None && ReadElement(sp, "<" + (sp.tag(tag) + t)) == None
  {
    hide ReadAttrs, ReadKids;
    var s := "<" + (sp.tag(tag) + t);
    assert NameText(sp.tag(tag));
    WordStops(sp.tag(tag), t);
    assert s[1..] == sp.tag(tag) + t && s[1 + |sp.tag(tag)|..] == t;
    TagBack(sp, tag);
  }

  /** One child that is not read spoils its siblings. */
  lemma {:induction false} KidFails(sp: Spelling, before: seq<Xml>, bad: Xml, rest: string)
    requires Distinct(sp) && AllWritable(before) && ReadElement(sp, Write(sp, bad) + rest) == None
    ensures ReadKids(sp, KidsText(sp, before) + (Write(sp, bad) + rest)) == None
  {
    hide ReadElement, ReadKids, Distinct, Write, Writable;
    if before == [] {
      assert KidsText(sp, before) + (Write(sp, bad) + rest) == Write(sp, bad) + rest;
      WriteStarts(sp, bad, rest);
      FirstFails(sp, Write(sp, bad) + rest);
    } else {
      var tail := KidsText(sp, before[1..]) + (Write(sp, bad) + rest);
      assert before[0] in before;
      ElementBack(sp, before[0], tail);
      KidFails(sp, before[1..], bad, rest);
      WriteStarts(sp, before[0], tail);
      AttrShape(Write(sp, before[0]), KidsText(sp, before[1..]), Write(sp, bad) + rest);
      OneKidBack(sp, Write(sp, before[0]) + tail, before[0], tail);
    }
  }

  lemma FirstFails(sp: Spelling, s: string)
    requires |s| >= 2 && s[1] != '/' && ReadElement(sp, s) == None
    ensures ReadKids(sp, s) == None
  {
    hide ReadElement;
    assert "</"[1] == '/';
  }

  lemma {:induction false} KidsTextConcat(sp: Spelling, a: seq<Xml>, b: seq<Xml>)
    ensures KidsText(sp, a + b) == KidsText(sp, a) + KidsText(sp, b)
    decreases a
  {
    hide Write;
    if a == [] {
      assert a + b == b;
    } else {
      assert (a + b)[0] == a[0] && (a + b)[1..] == a[1..] + b;
      KidsTextConcat(sp, a[1..], b);
    }
  }

  /** And with them its parent. */
  lemma ElementFails(sp: Spelling, e: Xml, before: seq<Xml>, bad: Xml, after: seq<Xml>, rest: string)
    requires Distinct(sp) && WritableAttrs(e.attrs) && '<' !in e.raw && e.kids == before + ([bad] + after) && AllWritable(before)
    requires forall r :: ReadElement(sp, Write(sp, bad) + r) == None
    ensures ReadElement(sp, Write(sp, e) + rest) == None
  {
    hide ReadElement, ReadKids, Distinct, Write, Writable, KidsText, EndTag, StartText;
    var end := EndTag(sp, e.tag) + rest;
    EndStarts(sp, e.tag, rest);
    WriteShape(sp, e, rest);
    KidsStart(sp, e.kids, end);
    BodyBack(sp, e.tag, e.attrs, e.raw, KidsText(sp, e.kids) + end);
    KidsTextConcat(sp, before, [bad] + after);
    KidsFirst(sp, bad, after);
    KidFails(sp, before, bad, KidsText(sp, after) + end);
    assert KidsText(sp, before) + (Write(sp, bad) + KidsText(sp, after)) + end == KidsText(sp, before) + (Write(sp, bad) + (KidsText(sp, after) + end));
  }

  lemma KidsFirst(sp: Spelling, k: Xml, after: seq<Xml>)
    ensures KidsText(sp, [k] + after) == Write(sp, k) + KidsText(sp, after)
  {
    hide Write;
    assert ([k] + after)[1..] == after;
  }
}
