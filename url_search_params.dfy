/** What `new URL(text).searchParams.get(name)` computes, as qr-scanner.js uses
    it to read a UPI payload: the `application/x-www-form-urlencoded` parser of
    section 5.1 of the WHATWG URL Standard, and the part of the URL parser that
    decides whether the text is a URL at all and where its query lies. */
module UrlSearchParams {
  import opened Common

  // ----- percent-decoding ------------------------------------------------------

  predicate IsHexDigit(c: char)
  {
    IsAsciiDigit(c) || 'a' <= c <= 'f' || 'A' <= c <= 'F'
  }

  function HexValue(c: char): (v: nat)
    requires IsHexDigit(c)
    ensures v < 16
  {
    if IsAsciiDigit(c) then DigitValue(c)
    else if 'a' <= c <= 'f' then c as int - 'a' as int + 10
    else c as int - 'A' as int + 10
  }

  /** Upper-case hexadecimal digit of a value below 16. */
  function HexChar(v: nat): (c: char)
    requires v < 16
    ensures IsHexDigit(c) && HexValue(c) == v
  {
    if v < 10 then DigitChar(v) else ('A' as int + v - 10) as char
  }

  /** Percent-decoding: `%XX` with two hex digits becomes the character whose
      code is the byte XX; any other `%` stays as it is. */
  function PercentDecode(s: string): string
    decreases |s|
  {
    if |s| == 0 then ""
    else if s[0] == '%' && |s| >= 3 && IsHexDigit(s[1]) && IsHexDigit(s[2]) then
      [(HexValue(s[1]) * 16 + HexValue(s[2])) as char] + PercentDecode(s[3..])
    else [s[0]] + PercentDecode(s[1..])
  }

  /** Every `+` becomes a space (done before percent-decoding). */
  function PlusToSpace(s: string): (r: string)
    ensures |r| == |s|
    ensures forall i :: 0 <= i < |s| ==> r[i] == if s[i] == '+' then ' ' else s[i]
  {
    if |s| == 0 then "" else [if s[0] == '+' then ' ' else s[0]] + PlusToSpace(s[1..])
  }

  function DecodeComponent(s: string): string
  {
    PercentDecode(PlusToSpace(s))
  }

  // ----- the parser ------------------------------------------------------------

  /** Splits at the first `c`: the text before it and, if `c` occurs, the text
      after it. */
  function SplitAtFirst(s: string, c: char): (r: (string, Option<string>))
    ensures c !in r.0
    ensures r.1.None? <==> c !in s
    ensures r.1.Some? ==> s == r.0 + [c] + r.1.value
    ensures r.1.None? ==> r.0 == s
  {
    if |s| == 0 then ("", None)
    else if s[0] == c then
      assert s == [] + [c] + s[1..];
      ("", Some(s[1..]))
    else
      var (before, after) := SplitAtFirst(s[1..], c);
      assert s == [s[0]] + s[1..];
      ([s[0]] + before, after)
  }

  /** One `name=value` sequence: the name ends at the first `=`; with no `=`
      the whole sequence is the name and the value is empty. */
  function ParseSequence(bytes: string): (string, string)
  {
    var (name, value) := SplitAtFirst(bytes, '=');
    (DecodeComponent(name), DecodeComponent(if value.Some? then value.value else ""))
  }

  function ParseSequences(sequences: seq<string>): seq<(string, string)>
  {
    if |sequences| == 0 then []
    else
      (if sequences[0] == "" then [] else [ParseSequence(sequences[0])])
      + ParseSequences(sequences[1..])
  }

  /** The `application/x-www-form-urlencoded` parser: split on `&`, skip empty
      sequences, parse each into a name-value pair, in order. */
  function ParseUrlEncoded(input: string): seq<(string, string)>
  {
    ParseSequences(Split(input, '&'))
  }

  /** `URLSearchParams.get(name)`: the value of the first pair named `name`,
      or `null`. */
  function Get(pairs: seq<(string, string)>, name: string): (r: Option<string>)
    ensures r.None? <==> forall i :: 0 <= i < |pairs| ==> pairs[i].0 != name
    ensures r.Some? ==> exists i :: 0 <= i < |pairs| && pairs[i] == (name, r.value)
                                    && forall j :: 0 <= j < i ==> pairs[j].0 != name
  {
    if |pairs| == 0 then None
    else if pairs[0].0 == name then Some(pairs[0].1)
    else
      var r := Get(pairs[1..], name);
      assert forall i :: 1 <= i < |pairs| ==> pairs[i] == pairs[1..][i - 1];
      if r.Some? then
        var k :| 0 <= k < |pairs[1..]| && pairs[1..][k] == (name, r.value)
                 && forall j :: 0 <= j < k ==> pairs[1..][j].0 != name;
        assert pairs[k + 1] == (name, r.value);
        r
      else r
  }

  // ----- a serializer, as the reference the parser is checked against ----------

  /** Characters that would change how the parser splits or decodes. */
  predicate NeedsEscape(c: char)
  {
    c == '%' || c == '&' || c == '=' || c == '+' || c == '#' || c as int < 0x20 || c as int == 0x7F
  }

  /** Encodes one character: space as `+`, the characters that matter to the
      parser as `%XX`, everything else (non-ASCII included) as itself. */
  function EncodeChar(c: char): (r: string)
    ensures forall i :: 0 <= i < |r| ==> r[i] as int > 0x20 && r[i] !in "&=#"
  {
    if c == ' ' then "+"
    else if NeedsEscape(c) then ['%', HexChar(c as int / 16), HexChar(c as int % 16)]
    else [c]
  }

  function EncodeComponent(s: string): (r: string)
    ensures forall i :: 0 <= i < |r| ==> r[i] as int > 0x20 && r[i] !in "&=#"
  {
    if |s| == 0 then ""
    else
      var r := EncodeChar(s[0]) + EncodeComponent(s[1..]);
      assert forall i :: |EncodeChar(s[0])| <= i < |r| ==> r[i] == EncodeComponent(s[1..])[i - |EncodeChar(s[0])|];
      r
  }

  function EncodePair(p: (string, string)): string
  {
    EncodeComponent(p.0) + "=" + EncodeComponent(p.1)
  }

  /** Serializes name-value pairs, `&`-separated. */
  function Serialize(pairs: seq<(string, string)>): string
  {
    if |pairs| == 0 then ""
    else if |pairs| == 1 then EncodePair(pairs[0])
    else EncodePair(pairs[0]) + "&" + Serialize(pairs[1..])
  }

  lemma PlusToSpaceAppend(a: string, b: string)
    ensures PlusToSpace(a + b) == PlusToSpace(a) + PlusToSpace(b)
  {
  }

  /** Decoding an encoded character yields it and leaves the rest to decode. */
  lemma DecodeEncodedChar(c: char, rest: string)
    ensures PercentDecode(PlusToSpace(EncodeChar(c)) + rest) == [c] + PercentDecode(rest)
  {
    var e := EncodeChar(c);
    if c == ' ' {
      assert PlusToSpace(e) == " ";
      assert (" " + rest)[1..] == rest;
    } else if NeedsEscape(c) {
      var v := c as int;
      assert PlusToSpace(e) == e;
      var s := e + rest;
      assert s[0] == '%' && s[1] == HexChar(v / 16) && s[2] == HexChar(v % 16);
      assert s[3..] == rest;
      assert HexValue(s[1]) * 16 + HexValue(s[2]) == v;
    } else {
      assert PlusToSpace(e) == e;
      assert (e + rest)[1..] == rest;
    }
  }

  /** Round trip of one component: decoding undoes encoding. */
  lemma {:induction false} DecodeEncodeComponent(s: string)
    ensures DecodeComponent(EncodeComponent(s)) == s
    decreases |s|
  {
    if |s| > 0 {
      var e0 := EncodeChar(s[0]);
      var er := EncodeComponent(s[1..]);
      PlusToSpaceAppend(e0, er);
      DecodeEncodedChar(s[0], PlusToSpace(er));
      DecodeEncodeComponent(s[1..]);
      assert [s[0]] + s[1..] == s;
    }
  }

  lemma ParseEncodedPair(p: (string, string))
    ensures ParseSequence(EncodePair(p)) == p
  {
    var n := EncodeComponent(p.0);
    var v := EncodeComponent(p.1);
    assert '=' !in n;
    var (name, value) := SplitAtFirst(EncodePair(p), '=');
    assert EncodePair(p) == n + ['='] + v;
    SplitAtFirstUnique(n, v, '=');
    DecodeEncodeComponent(p.0);
    DecodeEncodeComponent(p.1);
  }

  lemma {:induction false} SplitAtFirstUnique(a: string, b: string, c: char)
    requires c !in a
    ensures SplitAtFirst(a + [c] + b, c) == (a, Some(b))
    decreases |a|
  {
    if |a| == 0 {
      assert a + [c] + b == [c] + b;
    } else {
      SplitAtFirstUnique(a[1..], b, c);
      assert (a + [c] + b)[1..] == a[1..] + [c] + b;
      assert [a[0]] + a[1..] == a;
    }
  }

  lemma EncodedPairShape(p: (string, string))
    ensures '&' !in EncodePair(p) && EncodePair(p) != ""
    ensures forall i :: 0 <= i < |EncodePair(p)| ==> EncodePair(p)[i] as int > 0x20 && EncodePair(p)[i] != '#'
  {
    var n := EncodeComponent(p.0);
    var v := EncodeComponent(p.1);
    var e := EncodePair(p);
    assert e == n + "=" + v;
    assert e[|n|] == '=';
    forall i | 0 <= i < |e| ensures e[i] as int > 0x20 && e[i] != '#' && e[i] != '&' {
      if i < |n| { assert e[i] == n[i]; }
      else if i > |n| { assert e[i] == v[i - |n| - 1]; }
    }
  }

  /** Every serialized character is printable ASCII or non-ASCII, and none is
      a `#`: the URL parser neither strips nor cuts any of them. */
  lemma {:induction false} SerializedChars(pairs: seq<(string, string)>)
    ensures forall i :: 0 <= i < |Serialize(pairs)| ==> Serialize(pairs)[i] as int > 0x20 && Serialize(pairs)[i] != '#'
  {
    if |pairs| == 1 {
      EncodedPairShape(pairs[0]);
    } else if |pairs| > 1 {
      EncodedPairShape(pairs[0]);
      SerializedChars(pairs[1..]);
      var e := EncodePair(pairs[0]);
      var t := Serialize(pairs[1..]);
      var s := Serialize(pairs);
      assert s == e + "&" + t;
      forall i | 0 <= i < |s| ensures s[i] as int > 0x20 && s[i] != '#' {
        if i < |e| { assert s[i] == e[i]; }
        else if i > |e| { assert s[i] == t[i - |e| - 1]; }
      }
    }
  }

  /** Parsing the serialization gives back the pairs, in order. */
  lemma {:induction false} ParseSerialize(pairs: seq<(string, string)>)
    ensures ParseUrlEncoded(Serialize(pairs)) == pairs
  {
    if |pairs| == 0 {
      assert Split("", '&') == [""];
    } else if |pairs| == 1 {
      EncodedPairShape(pairs[0]);
      SplitWithoutSep(EncodePair(pairs[0]), '&');
      ParseEncodedPair(pairs[0]);
      assert ParseSequences([EncodePair(pairs[0])]) == [ParseSequence(EncodePair(pairs[0]))] + ParseSequences([]);
    } else {
      var e := EncodePair(pairs[0]);
      var t := Serialize(pairs[1..]);
      EncodedPairShape(pairs[0]);
      SplitAfterFirst(e, t, '&');
      assert Serialize(pairs) == e + ['&'] + t;
      ParseSequencesCons(e, Split(t, '&'));
      ParseEncodedPair(pairs[0]);
      ParseSerialize(pairs[1..]);
      assert [pairs[0]] + pairs[1..] == pairs;
    }
  }

  lemma ParseSequencesCons(first: string, rest: seq<string>)
    requires first != ""
    ensures ParseSequences([first] + rest) == [ParseSequence(first)] + ParseSequences(rest)
  {
    assert ([first] + rest)[1..] == rest;
  }

  // ----- where the URL parser puts the query -----------------------------------

  predicate IsC0ControlOrSpace(c: char) { c as int <= 0x20 }

  predicate IsTabOrNewline(c: char) { c == '\t' || c == '\n' || c == '\r' }

  function StripLeadingC0(s: string): string
  {
    if |s| > 0 && IsC0ControlOrSpace(s[0]) then StripLeadingC0(s[1..]) else s
  }

  function StripTrailingC0(s: string): string
  {
    if |s| > 0 && IsC0ControlOrSpace(s[|s| - 1]) then StripTrailingC0(s[..|s| - 1]) else s
  }

  function RemoveTabNewline(s: string): (r: string)
    ensures (forall i :: 0 <= i < |s| ==> !IsTabOrNewline(s[i])) ==> r == s
  {
    if |s| == 0 then ""
    else (if IsTabOrNewline(s[0]) then "" else [s[0]]) + RemoveTabNewline(s[1..])
  }

  /** The input the URL parser actually reads. */
  function Preprocess(input: string): string
  {
    RemoveTabNewline(StripTrailingC0(StripLeadingC0(input)))
  }

  predicate IsSchemeChar(c: char)
  {
    IsAsciiAlphaNum(c) || c == '+' || c == '-' || c == '.'
  }

  /** Scheme characters up to and including a `:`. */
  predicate SchemeRest(s: string)
  {
    |s| > 0 && (s[0] == ':' || (IsSchemeChar(s[0]) && SchemeRest(s[1..])))
  }

  /** Without a base URL, the parser fails unless the input opens with
      `ALPHA *(ALNUM / "+" / "-" / ".") ":"`. */
  predicate HasScheme(s: string)
  {
    |s| > 0 && IsAsciiAlpha(s[0]) && SchemeRest(s[1..])
  }

  /** The query of a parsed URL: after the first `?`, up to the first `#`
      (which starts the fragment); empty when there is no `?` before it. */
  function QueryOf(s: string): string
  {
    var beforeFragment := SplitAtFirst(s, '#').0;
    var query := SplitAtFirst(beforeFragment, '?').1;
    if query.Some? then query.value else ""
  }

  /** `new URL(input).search` without its `?`, or `None` where `new URL`
      throws `TypeError`. */
  function UrlQuery(input: string): Option<string>
  {
    var s := Preprocess(input);
    if HasScheme(s) then Some(QueryOf(s)) else None
  }

  lemma PreprocessPrintable(s: string)
    requires forall i :: 0 <= i < |s| ==> s[i] as int > 0x20
    ensures Preprocess(s) == s
  {
    assert StripLeadingC0(s) == s;
    assert StripTrailingC0(s) == s;
  }
}
