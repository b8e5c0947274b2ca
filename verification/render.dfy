/** The notification email: an HTML body with one paragraph per record field,
    string values escaped, sent with a fixed subject to one recipient. */
module Render {
  import opened Wrappers
  import opened Values
  import opened Escape

  const Subject := "New Form Submission"

  /** An HTML tag `<name>`. */
  function Tag(name: string): string {
    "<" + name + ">"
  }

  /** `<name>inner</name>`. */
  function Element(name: string, inner: string): string {
    Tag(name) + inner + Tag("/" + name)
  }

  const Heading := Element("h1", Subject)

  function Digit(d: nat): char
    requires d < 10
  {
    "0123456789"[d]
  }

  /** Decimal digits of a natural number, most significant first. */
  function DigitsOf(n: nat): (s: string)
    ensures |s| >= 1
    ensures forall i :: 0 <= i < |s| ==> '0' <= s[i] <= '9'
    ensures n > 0 ==> s[0] != '0'
  {
    if n < 10 then [Digit(n)] else DigitsOf(n / 10) + [Digit(n % 10)]
  }

  /** `${n}` for an integral number. */
  function NumberText(n: int): string {
    if n < 0 then "-" + DigitsOf(-n) else DigitsOf(n)
  }

  /** The value of a digit character. */
  function DigitValue(c: char): int {
    c as int - '0' as int
  }

  /** The number a string of decimal digits denotes. */
  function ReadDigits(s: string): int {
    if |s| == 0 then 0 else 10 * ReadDigits(s[..|s| - 1]) + DigitValue(s[|s| - 1])
  }

  /** The number a decimal text denotes: an optional `-`, then digits. */
  function ReadNumber(s: string): int {
    if |s| > 0 && s[0] == '-' then -ReadDigits(s[1..]) else ReadDigits(s)
  }

  lemma DigitValueOfDigit(d: nat)
    requires d < 10
    ensures DigitValue(Digit(d)) == d
  {
  }

  lemma {:induction false} DigitsRoundTrip(n: nat)
    ensures ReadDigits(DigitsOf(n)) == n
  {
    var s := DigitsOf(n);
    if n < 10 {
      DigitValueOfDigit(n);
      assert s[..0] == [];
    } else {
      DigitsRoundTrip(n / 10);
      DigitValueOfDigit(n % 10);
      assert s[..|s| - 1] == DigitsOf(n / 10);
    }
  }

  /** A sign followed by digits reads back as the negated digits. */
  lemma ReadSigned(d: string)
    ensures ReadNumber("-" + d) == -ReadDigits(d)
  {
    assert ("-" + d)[1..] == d;
  }

  /** Text that does not start with a sign reads back as plain digits. */
  lemma ReadUnsigned(d: string)
    requires |d| > 0 && d[0] != '-'
    ensures ReadNumber(d) == ReadDigits(d)
  {
  }

  /** The text of an integer reads back as that integer. */
  lemma NumberTextRoundTrip(n: int)
    ensures ReadNumber(NumberText(n)) == n
  {
    var m: nat := if n < 0 then -n else n;
    var d := DigitsOf(m);
    DigitsRoundTrip(m);
    if n < 0 {
      assert NumberText(n) == "-" + d;
      ReadSigned(d);
    } else {
      assert NumberText(n) == d;
      ReadUnsigned(d);
    }
  }

  /** The text of an integer is its canonical decimal form: a `-` exactly
      for negative numbers, then digits without a leading zero. */
  lemma NumberTextCanonical(n: int)
    ensures var t := NumberText(n);
      && (n < 0 <==> t[0] == '-')
      && var ds := if n < 0 then t[1..] else t;
        |ds| >= 1 && (forall i :: 0 <= i < |ds| ==> '0' <= ds[i] <= '9') && (|ds| > 1 ==> ds[0] != '0')
  {
    if n < 0 {
      assert ("-" + DigitsOf(-n))[1..] == DigitsOf(-n);
    }
  }

  /** `${value}` after the sanitizer: only string values are escaped. */
  function ValueText(v: Value): string {
    match v
    case Str(s) => EscapeHtml(s)
    case Num(n) => NumberText(n)
    case Bool(b) => if b then "true" else "false"
    case Null => "null"
    case Undefined => "undefined"
    case Composite(text) => text
  }

  /** The paragraph emitted for one field,
      `<p><strong>${key}:</strong> ${value}</p>`; the key is inserted as is. */
  function Paragraph(f: Field): string {
    LabelledParagraph(f.key, ValueText(f.value))
  }

  /** A paragraph with a bold `name:` and the given text after it. */
  function LabelledParagraph(name: string, text: string): string {
    Element("p", Element("strong", name + ":") + " " + text)
  }

  /** The paragraphs of all fields, in key order. */
  function Paragraphs(rec: Record): string {
    if |rec| == 0 then "" else Paragraph(rec[0]) + Paragraphs(rec[1..])
  }

  function HtmlBody(rec: Record): string {
    Heading + Paragraphs(rec)
  }

  lemma {:induction false} ParagraphsSnoc(rec: Record, f: Field)
    ensures Paragraphs(rec + [f]) == Paragraphs(rec) + Paragraph(f)
  {
    if |rec| == 0 {
      assert rec + [f] == [f];
      assert Paragraphs([f]) == Paragraph(f) + Paragraphs([]);
    } else {
      assert (rec + [f])[1..] == rec[1..] + [f];
      assert (rec + [f])[0] == rec[0];
      ParagraphsSnoc(rec[1..], f);
    }
  }

  lemma AppendAssociates(a: string, b: string, c: string)
    ensures (a + b) + c == a + (b + c)
  {
  }

  /** Appending the next field's paragraph extends the body by one field. */
  lemma AppendParagraph(item: Record, i: int, heading: string, html: string)
    requires 0 <= i < |item|
    requires html == heading + Paragraphs(item[..i])
    ensures html + Paragraph(item[i]) == heading + Paragraphs(item[..i + 1])
  {
    var before, p := item[..i], Paragraph(item[i]);
    assert item[..i + 1] == before + [item[i]];
    ParagraphsSnoc(before, item[i]);
    AppendAssociates(heading, Paragraphs(before), p);
  }

  /** The body as the handler builds it: start from the heading and append
      one paragraph per key while walking `Object.keys(item)`. */
  method BuildHtmlBody(item: Record) returns (html: string)
    ensures html == HtmlBody(item)
  {
    html := Heading;
    var i := 0;
    assert item[..i] == [];
    while i < |item|
      invariant 0 <= i <= |item|
      invariant html == Heading + Paragraphs(item[..i])
    {
      AppendParagraph(item, i, Heading, html);
      html := html + Paragraph(item[i]);
      i := i + 1;
    }
    assert item[..i] == item;
  }

  /** Occurrences of a character in a string. */
  function Count(c: char, s: string): nat {
    multiset(s)[c]
  }

  /** Bracket characters a field contributes beyond the fixed markup: those
      in its key and in its unescaped value text. */
  function Injected(c: char, rec: Record): nat {
    if |rec| == 0 then 0
    else Count(c, rec[0].key) + Count(c, ValueText(rec[0].value)) + Injected(c, rec[1..])
  }

  lemma TagMarkup(c: char, name: string)
    requires c == '<' || c == '>'
    requires NoBrackets(name)
    ensures Count(c, Tag(name)) == 1
  {
  }

  /** An element adds exactly its two tags to the markup of its content. */
  lemma ElementMarkup(c: char, name: string, inner: string)
    requires c == '<' || c == '>'
    requires NoBrackets(name)
    ensures Count(c, Element(name, inner)) == 2 + Count(c, inner)
  {
    TagMarkup(c, name);
    assert NoBrackets("/" + name);
    TagMarkup(c, "/" + name);
    CountConcat(c, Tag(name), inner);
    CountConcat(c, Tag(name) + inner, Tag("/" + name));
  }

  lemma SubjectIsText()
    ensures NoBrackets(Subject)
  {
  }

  lemma HeadingMarkup(c: char)
    requires c == '<' || c == '>'
    ensures Count(c, Heading) == 2
  {
    assert NoBrackets("h1");
    ElementMarkup(c, "h1", Subject);
    SubjectIsText();
  }

  lemma MarkupOfParagraph(c: char, f: Field)
    requires c == '<' || c == '>'
    ensures Count(c, Paragraph(f)) == 4 + Count(c, f.key) + Count(c, ValueText(f.value))
  {
    LabelledMarkup(c, f.key, ValueText(f.value));
  }

  lemma LabelledMarkup(c: char, name: string, text: string)
    requires c == '<' || c == '>'
    ensures Count(c, LabelledParagraph(name, text)) == 4 + Count(c, name) + Count(c, text)
  {
    var bold := Element("strong", name + ":");
    var inner := bold + " " + text;
    assert NoBrackets("strong") && NoBrackets("p");
    assert NoBrackets(":") && NoBrackets(" ");
    TextMarkup(c, ":");
    TextMarkup(c, " ");
    CountConcat(c, name, ":");
    ElementMarkup(c, "strong", name + ":");
    CountConcat(c, bold, " ");
    CountConcat(c, bold + " ", text);
    ElementMarkup(c, "p", inner);
    assert LabelledParagraph(name, text) == Element("p", inner);
  }

  lemma CountConcat(c: char, a: string, b: string)
    ensures Count(c, a + b) == Count(c, a) + Count(c, b)
  {
    assert multiset(a + b) == multiset(a) + multiset(b);
  }

  /** Text without brackets holds no markup. */
  lemma TextMarkup(c: char, s: string)
    requires c == '<' || c == '>'
    requires NoBrackets(s)
    ensures Count(c, s) == 0
  {
  }

  /** Every `<` (and every `>`) in the body is either fixed markup, two for
      the heading and four per field, or comes from a key or an unescaped
      value text. */
  lemma {:induction false} MarkupCount(c: char, rec: Record)
    requires c == '<' || c == '>'
    ensures Count(c, HtmlBody(rec)) == 2 + 4 * |rec| + Injected(c, rec)
  {
    CountConcat(c, Heading, Paragraphs(rec));
    HeadingMarkup(c);
    ParagraphsMarkup(c, rec);
  }

  lemma {:induction false} ParagraphsMarkup(c: char, rec: Record)
    requires c == '<' || c == '>'
    ensures Count(c, Paragraphs(rec)) == 4 * |rec| + Injected(c, rec)
  {
    if |rec| > 0 {
      CountConcat(c, Paragraph(rec[0]), Paragraphs(rec[1..]));
      MarkupOfParagraph(c, rec[0]);
      ParagraphsMarkup(c, rec[1..]);
    }
  }

  /** What each kind of value renders as: a string is escaped character by
      character, a number is its decimal text, and an array or object is
      inserted as its own text. */
  lemma ValueTextMeaning(v: Value)
    ensures v.Str? ==> ValueText(v) == EscapeMap(v.s)
    ensures v.Num? ==> ReadNumber(ValueText(v)) == v.n
    ensures v.Bool? ==> ValueText(v) == (if v.b then "true" else "false")
    ensures v.Null? ==> ValueText(v) == "null"
    ensures v.Undefined? ==> ValueText(v) == "undefined"
    ensures v.Composite? ==> ValueText(v) == v.text
  {
    match v
    case Str(s) => TwoPassIsSingleMap(s);
    case Num(n) => NumberTextRoundTrip(n);
    case _ =>
  }

  /** A value whose text cannot carry markup: every kind except an array or
      object whose text holds a bracket. */
  predicate SafeText(v: Value) {
    v.Composite? ==> NoBrackets(v.text)
  }

  lemma ValueTextBracketFree(v: Value)
    requires SafeText(v)
    ensures NoBrackets(ValueText(v))
  {
    if v.Num? {
      var d := DigitsOf(if v.n < 0 then -v.n else v.n);
      assert forall i :: 0 <= i < |d| ==> d[i] != '<' && d[i] != '>';
      assert NoBrackets(d);
    }
  }

  lemma {:induction false} NothingInjected(c: char, rec: Record)
    requires c == '<' || c == '>'
    requires forall i :: 0 <= i < |rec| ==> NoBrackets(rec[i].key) && SafeText(rec[i].value)
    ensures Injected(c, rec) == 0
  {
    if |rec| > 0 {
      ValueTextBracketFree(rec[0].value);
      NothingInjected(c, rec[1..]);
    }
  }

  /** String values cannot inject markup: when keys and non-string values
      are bracket-free, the body holds exactly the template's brackets. */
  lemma NoMarkupInjection(rec: Record)
    requires forall i :: 0 <= i < |rec| ==> NoBrackets(rec[i].key) && SafeText(rec[i].value)
    ensures Count('<', HtmlBody(rec)) == 2 + 4 * |rec|
    ensures Count('>', HtmlBody(rec)) == 2 + 4 * |rec|
  {
    MarkupCount('<', rec);
    NothingInjected('<', rec);
    MarkupCount('>', rec);
    NothingInjected('>', rec);
  }

  /** Keys are not escaped: a bracket in a key reaches the body. */
  lemma KeyMarkupPassesThrough(k: string, v: Value)
    requires '<' in k
    ensures Count('<', HtmlBody([Field(k, v)])) > 2 + 4
  {
    var rec := [Field(k, v)];
    MarkupCount('<', rec);
    assert rec[1..] == [];
    assert Injected('<', rec[1..]) == 0;
    assert Injected('<', rec) == Count('<', rec[0].key) + Count('<', ValueText(rec[0].value));
    assert '<' in multiset(k);
  }

  /** Array and object values are not escaped either. */
  lemma CompositeMarkupPassesThrough(k: string, text: string)
    requires '<' in text
    ensures Count('<', HtmlBody([Field(k, Composite(text))])) > 2 + 4
  {
    var rec := [Field(k, Composite(text))];
    MarkupCount('<', rec);
    assert rec[1..] == [];
    assert Injected('<', rec[1..]) == 0;
    assert Injected('<', rec) == Count('<', rec[0].key) + Count('<', ValueText(rec[0].value));
    assert '<' in multiset(text);
  }

  datatype Email = Email(source: string, toAddresses: seq<string>, subject: string, htmlBody: string)

  /** The SES request for an item, or None when the sender or recipient is
      not configured (the handler throws before sending). */
  function ComposeEmail(emailFrom: Option<string>, emailTo: Option<string>, item: Record): (e: Option<Email>)
    ensures e.Some? <==> IsSet(emailFrom) && IsSet(emailTo)
    ensures e.Some? ==> e.value.source == emailFrom.value && e.value.toAddresses == [emailTo.value]
    ensures e.Some? ==> e.value.subject == "New Form Submission"
    ensures e.Some? ==> e.value.htmlBody == HtmlBody(item)
  {
    if !IsSet(emailFrom) || !IsSet(emailTo) then None
    else Some(Email(emailFrom.value, [emailTo.value], Subject, HtmlBody(item)))
  }
}
