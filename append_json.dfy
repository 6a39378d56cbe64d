// AppendJsonConverter: JSON arrays built by appending. Longs are written in
// decimal (a null element as `null`); strings are quoted after `escapeJson`,
// which applies seven `String.replace` calls, the backslash first. An empty
// or null collection gives `[]`.
//
// Partners: the escaper is shown to be a per-character map, a JSON string
// reader undoes it, and both arrays are read back into their elements.
// `escapeJson` leaves control characters other than \b \f \n \r \t raw,
// which section 7 of RFC 8259 forbids in a JSON string; EscapeStrict is the
// corrected escaper, proved to produce valid JSON string text and to read
// back. The string converter below is modelled as written, with `escapeJson`.

module AppendJson {
  import opened Util
  import opened Text

  const Backspace: char := '\U{8}'
  const FormFeed: char := '\U{C}'

  /** What a string conversion yields: the JSON text, or the NullPointerException of a null element. */
  datatype Converted = Json(text: string) | NullElement

  // ----- escapeJson as written -----

  /**
   * `String.replace` of every occurrence of one character by a text. Its
   * ensures covers only the absent character; what a replacement does to a
   * text that holds the character is stated by ReplaceCharAppend and the
   * per-character lemmas below.
   */
  function ReplaceChar(s: string, c: char, rep: string): (r: string)
    ensures c !in s ==> r == s
  {
    if s == [] then []
    else
      assert c !in s ==> c !in s[1..];
      (if s[0] == c then rep else [s[0]]) + ReplaceChar(s[1..], c, rep)
  }

  lemma {:induction false} ReplaceCharAppend(a: string, b: string, c: char, rep: string)
    ensures ReplaceChar(a + b, c, rep) == ReplaceChar(a, c, rep) + ReplaceChar(b, c, rep)
  {
    if a != [] {
      assert (a + b)[0] == a[0];
      assert (a + b)[1..] == a[1..] + b;
      ReplaceCharAppend(a[1..], b, c, rep);
    } else {
      assert a + b == b;
    }
  }

  /** `escapeJson`: the seven replacements in the order `escapeJson` applies them, the backslash first. */
  function EscapeJson(s: string): string
  {
    var s1 := ReplaceChar(s, '\\', "\\\\");
    var s2 := ReplaceChar(s1, '"', "\\\"");
    var s3 := ReplaceChar(s2, Backspace, "\\b");
    var s4 := ReplaceChar(s3, FormFeed, "\\f");
    var s5 := ReplaceChar(s4, '\n', "\\n");
    var s6 := ReplaceChar(s5, '\r', "\\r");
    ReplaceChar(s6, '\t', "\\t")
  }

  /** The escape of one character: the seven short escapes, every other character unchanged. */
  function EscapeChar(c: char): (e: string)
    ensures 1 <= |e| <= 2
    ensures |e| == 1 <==> e == [c]
    ensures |e| == 2 ==> e[0] == '\\' && ShortEscape(e[1]) == Some(c)
  {
    if c == '\\' then "\\\\"
    else if c == '"' then "\\\""
    else if c == Backspace then "\\b"
    else if c == FormFeed then "\\f"
    else if c == '\n' then "\\n"
    else if c == '\r' then "\\r"
    else if c == '\t' then "\\t"
    else [c]
  }

  /** A character that is none of the seven goes through every replacement unchanged. */
  lemma EscapePlainChar(c: char)
    requires EscapeChar(c) == [c]
    ensures EscapeJson([c]) == [c]
  {
    assert c != '\\' && c != '"' && c != Backspace && c != FormFeed && c != '\n' && c != '\r' && c != '\t';
  }

  /**
   * One of the seven is replaced at its own step; the steps before leave it
   * alone, and what its step writes holds none of the characters later steps
   * look for.
   */
  lemma EscapeSpecialChar(c: char)
    requires EscapeChar(c) != [c]
    ensures EscapeJson([c]) == EscapeChar(c)
  {
    if c == '\\' {
      EscapeBackslash();
    } else if c == '"' {
      EscapeQuote();
    } else if c == Backspace {
      EscapeBackspace();
    } else if c == FormFeed {
      EscapeFormFeed();
    } else if c == '\n' {
      EscapeNewline();
    } else if c == '\r' {
      EscapeReturn();
    } else {
      EscapeTab();
    }
  }

  lemma EscapeBackslash()
    ensures EscapeJson("\\") == "\\\\"
  {
    var e := "\\\\";
    assert ReplaceChar("\\", '\\', e) == e;
    assert '"' !in e && Backspace !in e && FormFeed !in e && '\n' !in e && '\r' !in e && '\t' !in e;
  }

  lemma EscapeQuote()
    ensures EscapeJson("\"") == "\\\""
  {
    var e := "\\\"";
    assert '\\' !in "\"";
    assert ReplaceChar("\"", '"', e) == e;
    assert Backspace !in e && FormFeed !in e && '\n' !in e && '\r' !in e && '\t' !in e;
  }

  lemma EscapeBackspace()
    ensures EscapeJson([Backspace]) == "\\b"
  {
    var e := "\\b";
    assert '\\' !in [Backspace] && '"' !in [Backspace];
    assert ReplaceChar([Backspace], Backspace, e) == e;
    assert FormFeed !in e && '\n' !in e && '\r' !in e && '\t' !in e;
  }

  lemma EscapeFormFeed()
    ensures EscapeJson([FormFeed]) == "\\f"
  {
    var e := "\\f";
    assert '\\' !in [FormFeed] && '"' !in [FormFeed] && Backspace !in [FormFeed];
    assert ReplaceChar([FormFeed], FormFeed, e) == e;
    assert '\n' !in e && '\r' !in e && '\t' !in e;
  }

  lemma EscapeNewline()
    ensures EscapeJson("\n") == "\\n"
  {
    var e := "\\n";
    assert '\\' !in "\n" && '"' !in "\n" && Backspace !in "\n" && FormFeed !in "\n";
    assert ReplaceChar("\n", '\n', e) == e;
    assert '\r' !in e && '\t' !in e;
  }

  lemma EscapeReturn()
    ensures EscapeJson("\r") == "\\r"
  {
    var e := "\\r";
    assert '\\' !in "\r" && '"' !in "\r" && Backspace !in "\r" && FormFeed !in "\r" && '\n' !in "\r";
    assert ReplaceChar("\r", '\r', e) == e;
    assert '\t' !in e;
  }

  lemma EscapeTab()
    ensures EscapeJson("\t") == "\\t"
  {
    var e := "\\t";
    assert '\\' !in "\t" && '"' !in "\t" && Backspace !in "\t" && FormFeed !in "\t" && '\n' !in "\t" && '\r' !in "\t";
    assert ReplaceChar("\t", '\t', e) == e;
  }

  lemma EscapeOneChar(c: char)
    ensures EscapeJson([c]) == EscapeChar(c)
  {
    if EscapeChar(c) == [c] {
      EscapePlainChar(c);
    } else {
      EscapeSpecialChar(c);
    }
  }

  lemma EscapeJsonAppend(a: string, b: string)
    ensures EscapeJson(a + b) == EscapeJson(a) + EscapeJson(b)
  {
    ReplaceCharAppend(a, b, '\\', "\\\\");
    var a1, b1 := ReplaceChar(a, '\\', "\\\\"), ReplaceChar(b, '\\', "\\\\");
    ReplaceCharAppend(a1, b1, '"', "\\\"");
    var a2, b2 := ReplaceChar(a1, '"', "\\\""), ReplaceChar(b1, '"', "\\\"");
    ReplaceCharAppend(a2, b2, Backspace, "\\b");
    var a3, b3 := ReplaceChar(a2, Backspace, "\\b"), ReplaceChar(b2, Backspace, "\\b");
    ReplaceCharAppend(a3, b3, FormFeed, "\\f");
    var a4, b4 := ReplaceChar(a3, FormFeed, "\\f"), ReplaceChar(b3, FormFeed, "\\f");
    ReplaceCharAppend(a4, b4, '\n', "\\n");
    var a5, b5 := ReplaceChar(a4, '\n', "\\n"), ReplaceChar(b4, '\n', "\\n");
    ReplaceCharAppend(a5, b5, '\r', "\\r");
    var a6, b6 := ReplaceChar(a5, '\r', "\\r"), ReplaceChar(b5, '\r', "\\r");
    ReplaceCharAppend(a6, b6, '\t', "\\t");
  }

  /** Escaping character by character. */
  function EscapeEach(s: string): string
  {
    if s == [] then [] else EscapeChar(s[0]) + EscapeEach(s[1..])
  }

  /**
   * Because the backslash is replaced first, no escape written by a later
   * replacement is escaped again: `escapeJson` is the per-character map.
   */
  lemma {:induction false} EscapeJsonIsPerChar(s: string)
    ensures EscapeJson(s) == EscapeEach(s)
  {
    if s != [] {
      assert s == [s[0]] + s[1..];
      EscapeJsonAppend([s[0]], s[1..]);
      EscapeOneChar(s[0]);
      EscapeJsonIsPerChar(s[1..]);
    }
  }

  /** Every character outside the seven, control characters included, is written as it is. */
  lemma OtherCharsPassThrough(c: char)
    requires c !in ['\\', '"', Backspace, FormFeed, '\n', '\r', '\t']
    ensures EscapeJson([c]) == [c]
  {
    EscapeOneChar(c);
  }

  // ----- reading a JSON string back -----

  /** The character a two-character escape stands for (section 7 of RFC 8259). */
  function ShortEscape(c: char): Option<char>
  {
    if c == '"' then Some('"')
    else if c == '\\' then Some('\\')
    else if c == '/' then Some('/')
    else if c == 'b' then Some(Backspace)
    else if c == 'f' then Some(FormFeed)
    else if c == 'n' then Some('\n')
    else if c == 'r' then Some('\r')
    else if c == 't' then Some('\t')
    else None
  }

  function HexValue(c: char): Option<nat>
  {
    if '0' <= c <= '9' then Some(c as int - '0' as int)
    else if 'a' <= c <= 'f' then Some(c as int - 'a' as int + 10)
    else if 'A' <= c <= 'F' then Some(c as int - 'A' as int + 10)
    else None
  }

  /** The code unit four hex digits denote. */
  function Hex4(h: string): (r: Option<nat>)
    requires |h| == 4
    ensures r.Some? ==> r.value < 0x1_0000
  {
    match (HexValue(h[0]), HexValue(h[1]), HexValue(h[2]), HexValue(h[3]))
      case (Some(a), Some(b), Some(c), Some(d)) =>
        if a < 16 && b < 16 && c < 16 && d < 16 then Some(((a * 16 + b) * 16 + c) * 16 + d) else None
      case _ => None
  }

  function Cons(c: char, r: Option<(string, string)>): Option<(string, string)>
  {
    if r.Some? then Some(([c] + r.value.0, r.value.1)) else None
  }

  /**
   * Reads the body of a JSON string up to its closing quote, decoding the
   * escapes, and returns the text and what follows the quote. Raw characters
   * are taken as they are, control characters included.
   */
  function ScanString(t: string): (r: Option<(string, string)>)
    ensures r.Some? ==> |r.value.1| < |t|
    decreases |t|
  {
    if t == [] then None
    else if t[0] == '"' then Some(([], t[1..]))
    else if t[0] == '\\' then
      if |t| >= 2 && ShortEscape(t[1]).Some? then Cons(ShortEscape(t[1]).value, ScanString(t[2..]))
      else if |t| >= 6 && t[1] == 'u' && Hex4(t[2..6]).Some? then
        var v := Hex4(t[2..6]).value;
        if v < 0xD800 || 0xE000 <= v then Cons(v as char, ScanString(t[6..])) else None
      else None
    else Cons(t[0], ScanString(t[1..]))
  }

  /** Escaped text followed by a closing quote reads back as the original text. */
  lemma {:induction false} ScanEscaped(s: string, rest: string)
    ensures ScanString(EscapeEach(s) + "\"" + rest) == Some((s, rest))
  {
    var t := EscapeEach(s) + "\"" + rest;
    if s == [] {
      assert t == "\"" + rest;
    } else {
      var e := EscapeChar(s[0]);
      var tail := EscapeEach(s[1..]) + "\"" + rest;
      assert t == e + tail;
      ScanEscaped(s[1..], rest);
      if |e| == 2 {
        assert t[0] == '\\' && t[2..] == tail;
      } else {
        assert t[0] == s[0] && t[1..] == tail;
      }
      assert [s[0]] + s[1..] == s;
    }
  }

  /** `escapeJson` round-trips through the JSON string reader. */
  lemma EscapeJsonRoundTrip(s: string, rest: string)
    ensures ScanString(EscapeJson(s) + "\"" + rest) == Some((s, rest))
  {
    EscapeJsonIsPerChar(s);
    ScanEscaped(s, rest);
  }

  // ----- validity under section 7 of RFC 8259 -----

  predicate Unescaped(c: char)
  {
    c >= ' ' && c != '"' && c != '\\'
  }

  /** The characters of a JSON string between its quotes, as section 7 of RFC 8259 allows them. */
  predicate JsonChars(t: string)
    decreases |t|
  {
    if t == [] then true
    else if Unescaped(t[0]) then JsonChars(t[1..])
    else if t[0] == '\\' && |t| >= 2 && ShortEscape(t[1]).Some? then JsonChars(t[2..])
    else if t[0] == '\\' && |t| >= 6 && t[1] == 'u' && Hex4(t[2..6]).Some? then JsonChars(t[6..])
    else false
  }

  /** As written, a raw control character such as U+0001 leaves `escapeJson` unescaped: not valid JSON. */
  lemma EscapeJsonLeavesControlChar()
    ensures EscapeJson("\U{1}") == "\U{1}"
    ensures !JsonChars(EscapeJson("\U{1}"))
  {
    OtherCharsPassThrough('\U{1}');
  }

  /** The hex digit of a value below 16. */
  function HexDigit(d: nat): (c: char)
    requires d < 16
    ensures HexValue(c) == Some(d)
  {
    if d < 10 then (d + '0' as int) as char else (d - 10 + 'a' as int) as char
  }

  /** The corrected escape of one character: other control characters as `\u00XX`. */
  function EscapeCharStrict(c: char): (e: string)
  {
    if c < ' ' && |EscapeChar(c)| == 1 then
      "\\u00" + [HexDigit(c as int / 16), HexDigit(c as int % 16)]
    else EscapeChar(c)
  }

  /** The corrected escaper. */
  function EscapeStrict(s: string): string
  {
    if s == [] then [] else EscapeCharStrict(s[0]) + EscapeStrict(s[1..])
  }

  lemma UnicodeEscape(c: char)
    requires c < ' '
    ensures var e := "\\u00" + [HexDigit(c as int / 16), HexDigit(c as int % 16)];
      |e| == 6 && e[0] == '\\' && e[1] == 'u' && Hex4(e[2..6]) == Some(c as int)
  {
    var e := "\\u00" + [HexDigit(c as int / 16), HexDigit(c as int % 16)];
    assert e[2..6] == ['0', '0', HexDigit(c as int / 16), HexDigit(c as int % 16)];
    assert HexValue('0') == Some(0);
  }

  /** The corrected escaper writes only what section 7 of RFC 8259 allows in a JSON string. */
  lemma {:induction false} EscapeStrictIsValid(s: string)
    ensures JsonChars(EscapeStrict(s))
  {
    if s != [] {
      var c := s[0];
      var e := EscapeCharStrict(c);
      var t := e + EscapeStrict(s[1..]);
      EscapeStrictIsValid(s[1..]);
      if c < ' ' && |EscapeChar(c)| == 1 {
        UnicodeEscape(c);
        assert t[6..] == EscapeStrict(s[1..]);
      } else if |e| == 2 {
        assert t[2..] == EscapeStrict(s[1..]);
      } else {
        assert t[1..] == EscapeStrict(s[1..]);
      }
    }
  }

  /** The reader takes one strictly escaped character back, whatever follows. */
  lemma ScanCharStrict(c: char, tail: string)
    ensures ScanString(EscapeCharStrict(c) + tail) == Cons(c, ScanString(tail))
  {
    var e := EscapeCharStrict(c);
    var t := e + tail;
    if c < ' ' && |EscapeChar(c)| == 1 {
      ScanUnicode(c, tail);
    } else if |e| == 2 {
      assert t[0] == '\\' && t[1] == e[1] && t[2..] == tail;
    } else {
      assert t[0] == c && t[1..] == tail;
    }
  }

  lemma ScanUnicode(c: char, tail: string)
    requires c < ' '
    ensures ScanString("\\u00" + [HexDigit(c as int / 16), HexDigit(c as int % 16)] + tail) == Cons(c, ScanString(tail))
  {
    var e := "\\u00" + [HexDigit(c as int / 16), HexDigit(c as int % 16)];
    var t := e + tail;
    UnicodeEscape(c);
    assert t[0] == '\\' && t[1] == 'u';
    assert ShortEscape('u') == None;
    assert t[2..6] == e[2..6] && t[6..] == tail;
    assert (c as int) as char == c;
  }

  /** The corrected escaper round-trips through the JSON string reader. */
  lemma {:induction false} EscapeStrictRoundTrip(s: string, rest: string)
    ensures ScanString(EscapeStrict(s) + "\"" + rest) == Some((s, rest))
  {
    var t := EscapeStrict(s) + "\"" + rest;
    if s == [] {
      assert t == "\"" + rest;
    } else {
      var tail := EscapeStrict(s[1..]) + "\"" + rest;
      assert t == EscapeCharStrict(s[0]) + tail;
      EscapeStrictRoundTrip(s[1..], rest);
      ScanCharStrict(s[0], tail);
      assert [s[0]] + s[1..] == s;
    }
  }

  // ----- convertListLongToJson -----

  /** `String.valueOf` of a Long element. */
  function LongText(x: Option<int>): string
  {
    if x.Some? then IntToString(x.value) else "null"
  }

  function LongTexts(xs: seq<Option<int>>): (r: seq<string>)
    ensures |r| == |xs|
    ensures forall i :: 0 <= i < |xs| ==> r[i] == LongText(xs[i])
  {
    if xs == [] then [] else [LongText(xs[0])] + LongTexts(xs[1..])
  }

  /** The JSON text `convertListLongToJson` builds. */
  function LongsJson(list: Option<seq<Option<int>>>): string
  {
    if list.None? || list.value == [] then "[]"
    else "[" + Join(LongTexts(list.value), ", ") + "]"
  }

  /** One more element after the separator the previous step wrote. */
  lemma JoinedStep(texts: seq<string>, i: int)
    requires 0 <= i < |texts|
    ensures "[" + Join(texts[..i], ", ") + (if 0 < i then ", " else "") + texts[i]
            == "[" + Join(texts[..i + 1], ", ")
  {
    assert texts[..i + 1] == texts[..i] + [texts[i]];
    if i == 0 {
      assert texts[..1] == [texts[0]];
    } else {
      JoinAppend(texts[..i], texts[i], ", ");
    }
  }

  /** `convertListLongToJson`: the elements in list order, separated by ", ", in brackets. */
  method ConvertListLongToJson(list: Option<seq<Option<int>>>) returns (json: string)
    ensures json == LongsJson(list)
  {
    if list.None? || list.value == [] {
      return "[]";
    }
    var xs := list.value;
    ghost var texts := LongTexts(xs);
    var sb := "[";
    var i := 0;
    while i < |xs|
      invariant 0 <= i <= |xs|
      invariant sb == "[" + Join(texts[..i], ", ") + (if 0 < i < |xs| then ", " else "")
    {
      assert texts[i] == LongText(xs[i]);
      JoinedStep(texts, i);
      sb := sb + LongText(xs[i]);
      if i < |xs| - 1 {
        sb := sb + ", ";
      }
      i := i + 1;
    }
    assert texts[..|xs|] == texts;
    json := sb + "]";
  }

  /** Reads one element of a Long array back. */
  function ParseLong(piece: string): Option<Option<int>>
  {
    if piece == "null" then Some(None)
    else match ParseInt(piece)
      case Some(v) => Some(Some(v))
      case None => None
  }

  function ParseLongs(pieces: seq<string>): Option<seq<Option<int>>>
  {
    if pieces == [] then Some([])
    else match (ParseLong(pieces[0]), ParseLongs(pieces[1..]))
      case (Some(x), Some(xs)) => Some([x] + xs)
      case _ => None
  }

  /** Reads a Long array in the converter's layout back into its elements. */
  function ParseLongArray(t: string): Option<seq<Option<int>>>
  {
    if |t| < 2 || t[0] != '[' || t[|t| - 1] != ']' then None
    else if |t| == 2 then Some([])
    else
      var pieces := Split(t[1..|t| - 1], ',');
      match Unpadded(pieces[1..])
        case Some(more) => ParseLongs([pieces[0]] + more)
        case None => None
  }

  lemma LongTextRoundTrip(x: Option<int>)
    ensures ParseLong(LongText(x)) == Some(x)
    ensures ',' !in LongText(x)
  {
    if x.Some? {
      var r := IntToString(x.value);
      assert r[0] == '-' || '0' <= r[0] <= '9';
      assert r != "null";
      ParseIntToString(x.value);
      forall i | 0 <= i < |r| ensures r[i] != ',' {
        assert r[i] == '-' || '0' <= r[i] <= '9';
      }
    }
  }

  lemma {:induction false} LongTextsRoundTrip(xs: seq<Option<int>>)
    ensures ParseLongs(LongTexts(xs)) == Some(xs)
    ensures Free(LongTexts(xs), ',')
  {
    if xs != [] {
      LongTextRoundTrip(xs[0]);
      LongTextsRoundTrip(xs[1..]);
      assert LongTexts(xs)[1..] == LongTexts(xs[1..]);
      assert [xs[0]] + xs[1..] == xs;
      forall i | 1 <= i < |xs| ensures ',' !in LongTexts(xs)[i] {
        assert LongTexts(xs)[i] == LongTexts(xs[1..])[i - 1];
      }
    }
  }

  /** The Long array reads back as its elements; a null list reads back as an empty one. */
  lemma LongsRoundTrip(list: Option<seq<Option<int>>>)
    ensures ParseLongArray(LongsJson(list)) == Some(if list.Some? then list.value else [])
  {
    if list.Some? && list.value != [] {
      var texts := LongTexts(list.value);
      LongTextsRoundTrip(list.value);
      assert |texts[0]| >= 1 by {
        if list.value[0].Some? { } else { }
      }
      BracketedLongs(texts);
    }
  }

  /** Comma-free element texts in the converter's layout are read back piece by piece. */
  lemma BracketedLongs(texts: seq<string>)
    requires |texts| >= 1 && |texts[0]| >= 1 && Free(texts, ',')
    ensures ParseLongArray("[" + Join(texts, ", ") + "]") == ParseLongs(texts)
  {
    BracketedPieces(texts);
    var t := "[" + Join(texts, ", ") + "]";
    var pieces := Split(t[1..|t| - 1], ',');
    assert ParseLongArray(t) == ParseLongs([pieces[0]] + texts[1..]);
    assert [texts[0]] + texts[1..] == texts;
  }

  /**
   * Texts free of commas, the first not empty, joined by ", " in brackets:
   * between the brackets, splitting at the commas and dropping the padding
   * gives the texts back.
   */
  lemma BracketedPieces(texts: seq<string>)
    requires |texts| >= 1 && |texts[0]| >= 1 && Free(texts, ',')
    ensures var t := "[" + Join(texts, ", ") + "]";
      && |t| > 2 && t[0] == '[' && t[|t| - 1] == ']'
      && Split(t[1..|t| - 1], ',')[0] == texts[0]
      && Unpadded(Split(t[1..|t| - 1], ',')[1..]) == Some(texts[1..])
  {
    var inner := Join(texts, ", ");
    var t := "[" + inner + "]";
    assert |inner| >= 1 by {
      if |texts| > 1 { } else { }
    }
    assert t[1..|t| - 1] == inner;
    assert [','] + " " == ", ";
    SplitJoin(texts, ',', " ");
    UnpaddedPadded(texts[1..]);
  }

  // ----- convertCollectionStringToJson -----

  /** An escaped element in quotes. */
  function Quoted(e: string): string
  {
    "\"" + EscapeJson(e) + "\""
  }

  /**
   * The converter as written puts a control character into the array raw:
   * the collection ["\u0001"] gives `["`, U+0001, `"]`.
   */
  lemma ConvertedControlCharIsRaw()
    ensures StringsJson(Some([Some("\U{1}")])) == Json("[\"\U{1}\"]")
    ensures !JsonChars(EscapeJson("\U{1}"))
  {
    EscapeJsonLeavesControlChar();
    var xs := [Some("\U{1}")];
    assert Present(xs) == ["\U{1}"];
    assert QuotedAll(["\U{1}"]) == [Quoted("\U{1}")];
  }

  /** An element quoted with the corrected escaper, as line 55 would write it once fixed. */
  function QuotedStrict(e: string): string
  {
    "\"" + EscapeStrict(e) + "\""
  }

  /** The corrected element is valid JSON string text between its quotes, and reads back. */
  lemma QuotedStrictReadsBack(e: string, rest: string)
    ensures var q := QuotedStrict(e);
      q[0] == '"' && JsonChars(q[1..|q| - 1]) && ScanString(q[1..] + rest) == Some((e, rest))
  {
    var q := QuotedStrict(e);
    assert q[1..|q| - 1] == EscapeStrict(e);
    assert q[1..] + rest == EscapeStrict(e) + "\"" + rest;
    EscapeStrictIsValid(e);
    EscapeStrictRoundTrip(e, rest);
  }

  /** The elements of a collection with no null in it. */
  function Present(xs: seq<Option<string>>): (r: seq<string>)
    ensures |r| == |xs|
  {
    seq(|xs|, i requires 0 <= i < |xs| => if xs[i].Some? then xs[i].value else "")
  }

  function QuotedAll(xs: seq<string>): (r: seq<string>)
    ensures |r| == |xs|
    ensures forall i :: 0 <= i < |xs| ==> r[i] == Quoted(xs[i])
  {
    if xs == [] then [] else [Quoted(xs[0])] + QuotedAll(xs[1..])
  }

  /** The outcome of `convertCollectionStringToJson`. */
  function StringsJson(coll: Option<seq<Option<string>>>): Converted
  {
    if coll.None? || coll.value == [] then Json("[]")
    else if exists i :: 0 <= i < |coll.value| && coll.value[i].None? then NullElement
    else Json("[" + Join(QuotedAll(Present(coll.value)), ", ") + "]")
  }

  /**
   * `convertCollectionStringToJson`: each element escaped by `escapeJson`
   * and quoted, in iteration order, separated by ", ", in brackets; a null
   * element makes the escaper throw.
   */
  method ConvertCollectionStringToJson(coll: Option<seq<Option<string>>>) returns (r: Converted)
    ensures r == StringsJson(coll)
  {
    if coll.None? || coll.value == [] {
      return Json("[]");
    }
    var xs := coll.value;
    ghost var quoted := QuotedAll(Present(xs));
    var sb := "[";
    var isFirst := true;
    var i := 0;
    while i < |xs|
      invariant 0 <= i <= |xs|
      invariant isFirst <==> i == 0
      invariant None !in xs[..i]
      invariant sb == "[" + Join(quoted[..i], ", ")
    {
      if xs[i].None? {
        return NullElement;
      }
      var element := xs[i].value;
      var q := "\"" + EscapeJson(element) + "\"";
      assert q == quoted[i];
      JoinedStep(quoted, i);
      if !isFirst {
        sb := sb + ", ";
      }
      sb := sb + q;
      isFirst := false;
      PrefixStaysFree(xs, i);
      i := i + 1;
    }
    assert quoted[..|xs|] == quoted;
    assert xs[..|xs|] == xs;
    return Json(sb + "]");
  }

  lemma PrefixStaysFree(xs: seq<Option<string>>, i: int)
    requires 0 <= i < |xs| && None !in xs[..i] && xs[i].Some?
    ensures None !in xs[..i + 1]
  {
    assert xs[..i + 1] == xs[..i] + [xs[i]];
  }

  /** Reads the quoted items of a string array, from the first quote to the closing bracket. */
  function ParseItems(t: string): Option<seq<string>>
    decreases |t|, 1
  {
    if t == [] || t[0] != '"' then None
    else match ScanString(t[1..])
      case None => None
      case Some((s, rest)) => AfterItem(s, rest)
  }

  /** After an item: the closing bracket, or ", " and more items. */
  function AfterItem(s: string, rest: string): Option<seq<string>>
    decreases |rest|, 0
  {
    if rest == "]" then Some([s])
    else if |rest| >= 2 && rest[..2] == ", " then
      match ParseItems(rest[2..])
        case Some(more) => Some([s] + more)
        case None => None
    else None
  }

  lemma QuotedItem(x: string, rest: string)
    ensures ParseItems(Quoted(x) + rest) == AfterItem(x, rest)
  {
    var t := Quoted(x) + rest;
    assert t[0] == '"' && t[1..] == EscapeJson(x) + "\"" + rest;
    EscapeJsonRoundTrip(x, rest);
  }

  /** Reads a string array in the converter's layout back into its elements. */
  function ParseStringArray(t: string): Option<seq<string>>
  {
    if t == "[]" then Some([])
    else if t != [] && t[0] == '[' then ParseItems(t[1..])
    else None
  }

  lemma {:induction false} ItemsRoundTrip(xs: seq<string>)
    requires |xs| >= 1
    ensures ParseItems(Join(QuotedAll(xs), ", ") + "]") == Some(xs)
    decreases |xs|, 1
  {
    if |xs| == 1 {
      assert Join(QuotedAll(xs), ", ") + "]" == Quoted(xs[0]) + "]";
      QuotedItem(xs[0], "]");
      assert [xs[0]] == xs;
    } else {
      ItemsRoundTripMore(xs);
    }
  }

  lemma {:induction false} ItemsRoundTripMore(xs: seq<string>)
    requires |xs| >= 2
    ensures ParseItems(Join(QuotedAll(xs), ", ") + "]") == Some(xs)
    decreases |xs|, 0
  {
    var tail := Join(QuotedAll(xs[1..]), ", ") + "]";
    QuotedAllTail(xs);
    JoinHead(QuotedAll(xs));
    QuotedItem(xs[0], ", " + tail);
    ItemsRoundTrip(xs[1..]);
    SeparatorAhead(tail);
    assert [xs[0]] + xs[1..] == xs;
  }

  lemma QuotedAllTail(xs: seq<string>)
    requires |xs| >= 1
    ensures QuotedAll(xs)[0] == Quoted(xs[0]) && QuotedAll(xs)[1..] == QuotedAll(xs[1..])
  {
  }

  /** The first of several parts, then the separator and the joined rest. */
  lemma JoinHead(q: seq<string>)
    requires |q| >= 2
    ensures Join(q, ", ") + "]" == q[0] + (", " + (Join(q[1..], ", ") + "]"))
  {
  }

  lemma SeparatorAhead(tail: string)
    ensures |", " + tail| >= 2 && (", " + tail)[..2] == ", " && (", " + tail)[2..] == tail
  {
  }

  /** A converted collection reads back as its elements; a null or empty one as an empty array. */
  lemma StringsRoundTrip(coll: Option<seq<Option<string>>>)
    requires StringsJson(coll).Json?
    ensures ParseStringArray(StringsJson(coll).text) == Some(if coll.Some? then Present(coll.value) else [])
    ensures coll.Some? ==> forall i :: 0 <= i < |coll.value| ==> coll.value[i] == Some(Present(coll.value)[i])
  {
    if coll.Some? && coll.value != [] {
      PresentElements(coll.value);
      BracketedItems(Present(coll.value));
    }
  }

  /** With no null element, each element is the present value at its index. */
  lemma PresentElements(xs: seq<Option<string>>)
    requires !exists i :: 0 <= i < |xs| && xs[i].None?
    ensures forall i :: 0 <= i < |xs| ==> xs[i] == Some(Present(xs)[i])
  {
  }

  /** Quoted items joined by ", " in brackets read back as the items. */
  lemma BracketedItems(xs: seq<string>)
    requires |xs| >= 1
    ensures ParseStringArray("[" + Join(QuotedAll(xs), ", ") + "]") == Some(xs)
  {
    var q := QuotedAll(xs);
    ItemsRoundTrip(xs);
    QuotedAllTail(xs);
    JoinFirst(q, ", ");
    OpenBracket(Join(q, ", "));
  }

  lemma JoinFirst(parts: seq<string>, sep: string)
    requires |parts| >= 1
    ensures |Join(parts, sep)| >= |parts[0]|
  {
    if |parts| > 1 { } else { }
  }

  /** After the opening bracket, anything longer than the closing bracket is items. */
  lemma OpenBracket(items: string)
    requires |items| >= 1
    ensures ParseStringArray("[" + items + "]") == ParseItems(items + "]")
  {
    var t := "[" + items + "]";
    assert |t| > 2;
    assert t[1..] == items + "]";
  }
}
