/** `escapeXml` of the share image: five replacements, one after the other. */
module XmlEscape {
  /** `text.replace(/c/g, with)`. */
  function Replace(text: string, c: char, with: string): string {
    if text == "" then "" else (if text[0] == c then with else [text[0]]) + Replace(text[1..], c, with)
  }

  function EscapeXml(text: string): string {
    var amp := Replace(text, '&', "&amp;");
    var lt := Replace(amp, '<', "&lt;");
    var gt := Replace(lt, '>', "&gt;");
    var quot := Replace(gt, '\"', "&quot;");
    Replace(quot, '\'', "&apos;")
  }

  /** The predefined entities (section 4.6 of XML 1.0). */
  function Entity(c: char): string {
    match c
    case '&' => "&amp;"
    case '<' => "&lt;"
    case '>' => "&gt;"
    case '\"' => "&quot;"
    case '\'' => "&apos;"
    case _ => [c]
  }

  /** One pass over the text. */
  function SinglePass(text: string): string {
    if text == "" then "" else Entity(text[0]) + SinglePass(text[1..])
  }

  /** How a reader of XML resolves the predefined entities. */
  function Decode(text: string): string
    decreases |text|
  {
    if text == "" then ""
    else if "&amp;" <= text then "&" + Decode(text[5..])
    else if "&lt;" <= text then "<" + Decode(text[4..])
    else if "&gt;" <= text then ">" + Decode(text[4..])
    else if "&quot;" <= text then "\"" + Decode(text[6..])
    else if "&apos;" <= text then "'" + Decode(text[6..])
    else [text[0]] + Decode(text[1..])
  }

  lemma {:induction false} ReplaceAppend(a: string, b: string, c: char, with: string)
    ensures Replace(a + b, c, with) == Replace(a, c, with) + Replace(b, c, with)
  {
    if a == "" {
      assert a + b == b;
    } else {
      assert (a + b)[1..] == a[1..] + b;
      ReplaceAppend(a[1..], b, c, with);
    }
  }

  lemma {:induction false} ReplaceNothing(text: string, c: char, with: string)
    requires c !in text
    ensures Replace(text, c, with) == text
  {
    if text != "" {
      assert text[0] in text && forall x | x in text[1..] :: x in text;
      ReplaceNothing(text[1..], c, with);
    }
  }

  lemma ReplaceOne(c: char, with: string)
    ensures Replace([c], c, with) == with
  {
    assert [c][1..] == "";
  }

  lemma EscapeAppend(a: string, b: string)
    ensures EscapeXml(a + b) == EscapeXml(a) + EscapeXml(b)
  {
    hide Replace;
    var amp, amp' := Replace(a, '&', "&amp;"), Replace(b, '&', "&amp;");
    var lt, lt' := Replace(amp, '<', "&lt;"), Replace(amp', '<', "&lt;");
    var gt, gt' := Replace(lt, '>', "&gt;"), Replace(lt', '>', "&gt;");
    ReplaceAppend(a, b, '&', "&amp;");
    ReplaceAppend(amp, amp', '<', "&lt;");
    ReplaceAppend(lt, lt', '>', "&gt;");
    ReplaceAppend(gt, gt', '\"', "&quot;");
    ReplaceAppend(Replace(gt, '\"', "&quot;"), Replace(gt', '\"', "&quot;"), '\'', "&apos;");
  }

  /** No replacement touches what an earlier one wrote. */
  lemma EscapeOne(c: char)
    ensures EscapeXml([c]) == Entity(c)
  {
    hide Replace;
    var amp := if c == '&' then "&amp;" else [c];
    var lt := if c == '<' then "&lt;" else amp;
    var gt := if c == '>' then "&gt;" else lt;
    var quot := if c == '\"' then "&quot;" else gt;
    Stage([c], c, '&', "&amp;", amp);
    Stage(amp, c, '<', "&lt;", lt);
    Stage(lt, c, '>', "&gt;", gt);
    Stage(gt, c, '\"', "&quot;", quot);
    Stage(quot, c, '\'', "&apos;", Entity(c));
  }

  /** What each of the five characters becomes. */
  lemma FiveEntities()
    ensures EscapeXml("&") == "&amp;" && EscapeXml("<") == "&lt;" && EscapeXml(">") == "&gt;"
    ensures EscapeXml("\"") == "&quot;" && EscapeXml("'") == "&apos;"
  {
    hide EscapeXml;
    EscapeOne('&');
    EscapeOne('<');
    EscapeOne('>');
    EscapeOne('\"');
    EscapeOne('\'');
  }

  lemma Stage(text: string, c: char, from: char, with: string, result: string)
    requires if c == from then text == [c] && result == with else from !in text && result == text
    ensures Replace(text, from, with) == result
  {
    if c == from {
      ReplaceOne(c, with);
    } else {
      ReplaceNothing(text, from, with);
    }
  }

  /** The five replacements are one pass, on every text. */
  lemma {:induction false} EscapeIsSinglePass(text: string)
    ensures EscapeXml(text) == SinglePass(text)
  {
    hide Replace, Entity;
    if text == "" {
      EscapeEmpty();
    } else {
      assert text == [text[0]] + text[1..];
      EscapeAppend([text[0]], text[1..]);
      EscapeOne(text[0]);
      EscapeIsSinglePass(text[1..]);
    }
  }

  lemma EscapeEmpty()
    ensures EscapeXml("") == ""
  {
  }

  lemma {:induction false} SinglePassIsSafe(text: string)
    ensures forall c | c in SinglePass(text) :: c !in "<>\"'"
  {
    if text != "" {
      SinglePassIsSafe(text[1..]);
    }
  }

  /** Nothing in the result opens a tag or closes an attribute. */
  lemma EscapeIsSafe(text: string)
    ensures forall c | c in EscapeXml(text) :: c != '<' && c != '>' && c != '\"' && c != '\''
  {
    EscapeIsSinglePass(text);
    SinglePassIsSafe(text);
  }

  lemma DecodeEntity(c: char, rest: string)
    ensures Decode(Entity(c) + rest) == [c] + Decode(rest)
  {
    var text := Entity(c) + rest;
    assert text[|Entity(c)|..] == rest;
    assert text[0] == Entity(c)[0] && (|Entity(c)| > 1 ==> text[1] == Entity(c)[1] && text[2] == Entity(c)[2]);
  }

  /** Decoding gives the text back. */
  lemma {:induction false} DecodeOfEscape(text: string)
    ensures Decode(EscapeXml(text)) == text
  {
    EscapeIsSinglePass(text);
    if text != "" {
      hide Decode, EscapeXml, Entity;
      EscapeIsSinglePass(text[1..]);
      DecodeOfEscape(text[1..]);
      DecodeEntity(text[0], SinglePass(text[1..]));
    }
  }

  /** Escaping `&` last instead of first would escape the entities themselves. */
  lemma OrderMatters()
    ensures Replace(Replace("<", '<', "&lt;"), '&', "&amp;") == "&amp;lt;" != EscapeXml("<")
  {
    hide Replace, EscapeXml;
    ReplaceOne('<', "&lt;");
    assert "&lt;" == ['&'] + "lt;";
    ReplaceAppend(['&'], "lt;", '&', "&amp;");
    ReplaceOne('&', "&amp;");
    ReplaceNothing("lt;", '&', "&amp;");
    EscapeOne('<');
  }
}
