/** The QR scanner page (static/js/qr-scanner.js): the classifier that turns
    scanned text into a typed record, and the scanner manager that keeps the
    scan history, the result feed and the UPI payment modal. */
module QrScanner {
  import opened Common
  import opened UrlSearchParams

  const UpiPrefix: string := "upi://pay?"
  const DummyPrefix: string := "https://dummy.com?"
  const MaxHistory: nat := 50
  const MaxResults: nat := 5
  const MsPerDay: int := 86400000

  // ----- records ------------------------------------------------------------------

  datatype ScanType = UPI | URL | Email | Phone | Text

  /** The `type` string the page stores and compares. */
  function TypeName(t: ScanType): string
  {
    match t
    case UPI => "UPI"
    case URL => "URL"
    case Email => "Email"
    case Phone => "Phone"
    case Text => "Text"
  }

  datatype Fields =
    | UpiFields(payeeAddress: string, payeeName: string, amount: string, currency: string,
                transactionNote: string, transactionRef: string, merchantCode: string)
    | UrlFields(url: string)
    | EmailFields(email: string)
    | PhoneFields(phone: string)
    | TextFields(text: string)
  {
    function Type(): ScanType
    {
      match this
      case UpiFields(_, _, _, _, _, _, _) => UPI
      case UrlFields(_) => URL
      case EmailFields(_) => Email
      case PhoneFields(_) => Phone
      case TextFields(_) => Text
    }

    /** `Object.entries(fields)`: keys in the order the record is built. */
    function Entries(): seq<(string, string)>
    {
      match this
      case UpiFields(pa, pn, am, cu, tn, tr, mc) =>
        [("payeeAddress", pa), ("payeeName", pn), ("amount", am), ("currency", cu),
         ("transactionNote", tn), ("transactionRef", tr), ("merchantCode", mc)]
      case UrlFields(u) => [("url", u)]
      case EmailFields(e) => [("email", e)]
      case PhoneFields(p) => [("phone", p)]
      case TextFields(t) => [("text", t)]
    }
  }

  /** A classified scan; `timestamp` is the capture time in milliseconds. */
  datatype ScanData = ScanData(rawData: string, timestamp: int, fields: Fields)

  /** A history entry: the scan spread into a new object with an `id`. */
  datatype HistoryEntry = HistoryEntry(scan: ScanData, id: int)

  /** `new URL(...)` throws `TypeError: Invalid URL`. */
  datatype ScanError = InvalidUrl

  /** What the file input gives `handleImageUpload`: no file, a file the
      image decoder finds no code in, or the decoded text. */
  datatype ImageUpload = NoFile | Undecodable | Decoded(text: string)

  // ----- the classifier -------------------------------------------------------------

  predicate IsUpiCandidate(text: string)
  {
    StartsWith(text, UpiPrefix) || Contains(text, "pa=") || Contains(text, "pn=")
  }

  predicate IsPhoneChar(c: char)
  {
    IsAsciiDigit(c) || IsJsWhitespace(c) || c == '-' || c == '(' || c == ')'
  }

  predicate AllPhoneChars(s: string)
  {
    forall i :: 0 <= i < |s| ==> IsPhoneChar(s[i])
  }

  /** `/^\+?[\d\s\-\(\)]+$/.test(s)`: an optional `+`, then at least one digit,
      white space, hyphen or parenthesis, and nothing else. */
  predicate MatchesPhonePattern(s: string)
  {
    (|s| >= 1 && AllPhoneChars(s)) || (|s| >= 2 && s[0] == '+' && AllPhoneChars(s[1..]))
  }

  /** `params.get(name) || fallback`: a missing or empty value gives the
      fallback. */
  function ParamOr(params: seq<(string, string)>, name: string, fallback: string): string
  {
    match Get(params, name)
    case Some(v) => if v == "" then fallback else v
    case None => fallback
  }

  function UpiFieldsOf(params: seq<(string, string)>): Fields
  {
    UpiFields(ParamOr(params, "pa", "Unknown"), ParamOr(params, "pn", "Unknown Merchant"),
              ParamOr(params, "am", "0"), ParamOr(params, "cu", "INR"),
              ParamOr(params, "tn", ""), ParamOr(params, "tr", ""), ParamOr(params, "mc", ""))
  }

  /** `parseQRData`: UPI first (and it throws where the UPI-looking text is not
      a URL), then URL, Email, Phone, and Text for everything else. */
  function ParseQRData(qrText: string, timestamp: int): (r: Result<ScanData, ScanError>)
    ensures r.Success? ==> r.value.rawData == qrText && r.value.timestamp == timestamp
    ensures r.Failure? ==> IsUpiCandidate(qrText)
    ensures r.Success? ==> (r.value.fields.Type() == UPI <==> IsUpiCandidate(qrText))
    ensures !IsUpiCandidate(qrText) ==>
              r.Success? && |r.value.fields.Entries()| == 1 && r.value.fields.Entries()[0].1 == qrText
    ensures !IsUpiCandidate(qrText) && StartsWith(qrText, "http") ==> r.value.fields.Type() == URL
    ensures (!IsUpiCandidate(qrText) && !StartsWith(qrText, "http")
             && Contains(qrText, "@") && Contains(qrText, ".")) ==> r.value.fields.Type() == Email
    ensures (!IsUpiCandidate(qrText) && !StartsWith(qrText, "http")
             && !(Contains(qrText, "@") && Contains(qrText, ".")) && MatchesPhonePattern(qrText))
            ==> r.value.fields.Type() == Phone
    ensures (!IsUpiCandidate(qrText) && !StartsWith(qrText, "http")
             && !(Contains(qrText, "@") && Contains(qrText, ".")) && !MatchesPhonePattern(qrText))
            ==> r.value.fields.Type() == Text
  {
    if IsUpiCandidate(qrText) then
      match UrlQuery(ReplaceFirst(qrText, UpiPrefix, DummyPrefix))
      case None => Failure(InvalidUrl)
      case Some(query) => Success(ScanData(qrText, timestamp, UpiFieldsOf(ParseUrlEncoded(query))))
    else if StartsWith(qrText, "http") || StartsWith(qrText, "https") then
      Success(ScanData(qrText, timestamp, UrlFields(qrText)))
    else if Contains(qrText, "@") && Contains(qrText, ".") then
      Success(ScanData(qrText, timestamp, EmailFields(qrText)))
    else if MatchesPhonePattern(qrText) then
      Success(ScanData(qrText, timestamp, PhoneFields(qrText)))
    else
      Success(ScanData(qrText, timestamp, TextFields(qrText)))
  }

  // ----- what the classifier guarantees -------------------------------------------

  lemma DummyPrefixChars()
    ensures forall i :: 0 <= i < |DummyPrefix| ==>
              DummyPrefix[i] as int > 0x20 && !IsTabOrNewline(DummyPrefix[i]) && DummyPrefix[i] != '#'
    ensures DummyPrefix == "https://dummy.com" + ['?'] && '?' !in "https://dummy.com"
  {
  }

  lemma {:induction false} StripTrailingKeepsPrefix(p: string, rest: string)
    requires |p| > 0 && !IsC0ControlOrSpace(p[|p| - 1])
    ensures exists r :: StripTrailingC0(p + rest) == p + r
    decreases |rest|
  {
    if |rest| == 0 {
      assert p + rest == p;
      assert StripTrailingC0(p + rest) == p + "";
    } else {
      var s := p + rest;
      if IsC0ControlOrSpace(s[|s| - 1]) {
        assert s[..|s| - 1] == p + rest[..|rest| - 1];
        StripTrailingKeepsPrefix(p, rest[..|rest| - 1]);
      } else {
        assert StripTrailingC0(s) == p + rest;
      }
    }
  }

  lemma {:induction false} RemoveTabNewlineAppend(a: string, b: string)
    ensures RemoveTabNewline(a + b) == RemoveTabNewline(a) + RemoveTabNewline(b)
    decreases |a|
  {
    if |a| > 0 {
      assert (a + b)[1..] == a[1..] + b;
      RemoveTabNewlineAppend(a[1..], b);
    } else {
      assert a + b == b;
    }
  }

  lemma HttpsHasScheme(rest: string)
    ensures HasScheme("https:" + rest)
  {
    var s := "https:" + rest;
    assert s[5..][0] == ':';
    assert SchemeRest(s[5..]);
    assert s[4..][1..] == s[5..];
    assert SchemeRest(s[4..]);
    assert s[3..][1..] == s[4..];
    assert SchemeRest(s[3..]);
    assert s[2..][1..] == s[3..];
    assert SchemeRest(s[2..]);
    assert s[1..][1..] == s[2..];
    assert SchemeRest(s[1..]);
  }

  /** After the replacement, the URL parser reads the dummy prefix unchanged. */
  lemma PreprocessDummy(rest: string)
    ensures exists r :: Preprocess(DummyPrefix + rest) == DummyPrefix + r
  {
    DummyPrefixChars();
    var s := DummyPrefix + rest;
    assert StripLeadingC0(s) == s;
    StripTrailingKeepsPrefix(DummyPrefix, rest);
    var r :| StripTrailingC0(s) == DummyPrefix + r;
    RemoveTabNewlineAppend(DummyPrefix, r);
    assert RemoveTabNewline(DummyPrefix) == DummyPrefix;
    assert Preprocess(s) == DummyPrefix + RemoveTabNewline(r);
  }

  /** Text that starts with `upi://pay?` always parses: it is classified UPI
      and `new URL` does not throw. */
  lemma UpiPrefixAlwaysParses(text: string, timestamp: int)
    requires StartsWith(text, UpiPrefix)
    ensures ParseQRData(text, timestamp).Success?
    ensures ParseQRData(text, timestamp).value.fields.Type() == UPI
  {
    ReplaceFirstAtStart(text, UpiPrefix, DummyPrefix);
    PreprocessDummy(text[|UpiPrefix|..]);
    var r :| Preprocess(DummyPrefix + text[|UpiPrefix|..]) == DummyPrefix + r;
    assert DummyPrefix + r == "https:" + (DummyPrefix[6..] + r);
    HttpsHasScheme(DummyPrefix[6..] + r);
  }

  /** A scheme needs its `:`. */
  lemma {:induction false} SchemeRestNeedsColon(s: string)
    requires ':' !in s
    ensures !SchemeRest(s)
    decreases |s|
  {
    if |s| > 0 {
      assert forall c :: c in s[1..] ==> c in s;
      SchemeRestNeedsColon(s[1..]);
    }
  }

  lemma {:induction false} StripLeadingSubset(s: string)
    ensures forall c :: c in StripLeadingC0(s) ==> c in s
    decreases |s|
  {
    if |s| > 0 && IsC0ControlOrSpace(s[0]) {
      StripLeadingSubset(s[1..]);
      assert forall c :: c in s[1..] ==> c in s;
    }
  }

  lemma {:induction false} StripTrailingSubset(s: string)
    ensures forall c :: c in StripTrailingC0(s) ==> c in s
    decreases |s|
  {
    if |s| > 0 && IsC0ControlOrSpace(s[|s| - 1]) {
      StripTrailingSubset(s[..|s| - 1]);
      assert forall c :: c in s[..|s| - 1] ==> c in s;
    }
  }

  lemma {:induction false} RemoveTabNewlineSubset(s: string)
    ensures forall c :: c in RemoveTabNewline(s) ==> c in s
    decreases |s|
  {
    if |s| > 0 {
      RemoveTabNewlineSubset(s[1..]);
      assert forall c :: c in s[1..] ==> c in s;
    }
  }

  /** UPI-looking text without a `:` is not a URL: `new URL` throws for it
      (for instance for `"pa=x"`). */
  lemma UpiMarkerWithoutColonFails(text: string, timestamp: int)
    requires IsUpiCandidate(text) && ':' !in text
    ensures ParseQRData(text, timestamp).Failure?
  {
    forall i | 0 <= i <= |text| ensures !StartsWith(text[i..], UpiPrefix) {
      if i + |UpiPrefix| <= |text| {
        assert text[i..][3] == text[i + 3];
        assert text[i + 3] in text;
      }
    }
    assert !StartsWith(text, UpiPrefix) by { assert text[0..] == text; }
    var s := Preprocess(text);
    StripLeadingSubset(text);
    StripTrailingSubset(StripLeadingC0(text));
    RemoveTabNewlineSubset(StripTrailingC0(StripLeadingC0(text)));
    assert ':' !in s;
    if |s| > 0 {
      assert forall c :: c in s[1..] ==> c in s;
      SchemeRestNeedsColon(s[1..]);
    }
  }

  lemma BareMarkerFails(timestamp: int)
    ensures ParseQRData("pa=x", timestamp).Failure?
  {
    ContainsAt("pa=x", "pa=", 0);
    UpiMarkerWithoutColonFails("pa=x", timestamp);
  }

  /** Behind the dummy prefix, printable text without `#` is the whole query. */
  lemma DummyQuery(ser: string)
    requires forall i :: 0 <= i < |ser| ==> ser[i] as int > 0x20 && ser[i] != '#'
    ensures UrlQuery(DummyPrefix + ser) == Some(ser)
  {
    var u := DummyPrefix + ser;
    DummyPrefixChars();
    forall i | 0 <= i < |u| ensures u[i] as int > 0x20 && u[i] != '#' {
      if i >= |DummyPrefix| { assert u[i] == ser[i - |DummyPrefix|]; }
    }
    PreprocessPrintable(u);
    assert u == "https:" + (DummyPrefix[6..] + ser);
    HttpsHasScheme(DummyPrefix[6..] + ser);
    assert '#' !in u;
    assert SplitAtFirst(u, '#').0 == u;
    assert u == "https://dummy.com" + ['?'] + ser;
    SplitAtFirstUnique("https://dummy.com", ser, '?');
  }

  /** A UPI payload written as `upi://pay?` and serialized name-value pairs
      parses to the values the pairs give, with the defaults where a key is
      missing or its value empty. */
  lemma UpiPayloadRoundTrip(pairs: seq<(string, string)>, timestamp: int)
    ensures ParseQRData(UpiPrefix + Serialize(pairs), timestamp)
            == Success(ScanData(UpiPrefix + Serialize(pairs), timestamp, UpiFieldsOf(pairs)))
  {
    var ser := Serialize(pairs);
    var text := UpiPrefix + ser;
    assert IsUpiCandidate(text) by {
      StartsWithAppend(UpiPrefix, ser);
    }
    assert ReplaceFirst(text, UpiPrefix, DummyPrefix) == DummyPrefix + ser by {
      StartsWithAppend(UpiPrefix, ser);
      assert text[|UpiPrefix|..] == ser;
      ReplaceFirstAtStart(text, UpiPrefix, DummyPrefix);
    }
    assert UrlQuery(DummyPrefix + ser) == Some(ser) by {
      SerializedChars(pairs);
      DummyQuery(ser);
    }
    ParseSerialize(pairs);
  }

  /** Characters that the serializer leaves as they are. */
  predicate IsPlainChar(c: char) { c != ' ' && !NeedsEscape(c) }

  lemma {:induction false} EncodePlain(s: string)
    requires IsPlain(s)
    ensures EncodeComponent(s) == s
    decreases |s|
  {
    if |s| > 0 {
      EncodePlain(s[1..]);
      assert [s[0]] + s[1..] == s;
    }
  }

  /** Serializing a pair list of two or more pairs puts the first in front. */
  lemma SerializeCons(p: (string, string), rest: seq<(string, string)>)
    requires |rest| > 0
    ensures Serialize([p] + rest) == EncodePair(p) + "&" + Serialize(rest)
  {
    assert ([p] + rest)[1..] == rest;
  }

  lemma PlainPair(name: string, value: string)
    requires IsPlain(name) && IsPlain(value)
    ensures EncodePair((name, value)) == name + "=" + value
  {
    EncodePlain(name);
    EncodePlain(value);
  }

  predicate IsPlain(s: string)
  {
    forall i :: 0 <= i < |s| ==> IsPlainChar(s[i])
  }

  lemma SerializeThree(p: (string, string), q: (string, string), r: (string, string))
    ensures Serialize([p, q, r]) == EncodePair(p) + "&" + (EncodePair(q) + "&" + EncodePair(r))
  {
    assert [p, q, r][1..] == [q, r];
    assert [q, r][1..] == [r];
    assert Serialize([r]) == EncodePair(r);
    assert Serialize([q, r]) == EncodePair(q) + "&" + EncodePair(r);
  }

  lemma PlainPayeePairs(a: string, b: string)
    requires IsPlain(a) && IsPlain(b)
    ensures EncodePair(("pa", a)) == "pa=" + a
    ensures EncodePair(("pn", b)) == "pn=" + b
  {
    PlainPair("pa", a);
    PlainPair("pn", b);
  }

  lemma ThreePairsSerialized(a: string, b: string, c: string)
    requires IsPlain(a) && IsPlain(b) && IsPlain(c)
    ensures Serialize([("pa", a), ("pn", b), ("am", c)]) == "pa=" + a + "&" + ("pn=" + b + "&" + ("am=" + c))
  {
    SerializeThree(("pa", a), ("pn", b), ("am", c));
    PlainPayeePairs(a, b);
    PlainPair("am", c);
  }

  lemma ThreePairsFields(a: string, b: string, c: string)
    requires a != "" && b != "" && c != ""
    ensures UpiFieldsOf([("pa", a), ("pn", b), ("am", c)]) == UpiFields(a, b, c, "INR", "", "", "")
  {
    var pairs := [("pa", a), ("pn", b), ("am", c)];
    assert "pa"[1] != "pn"[1] && "pa"[0] != "am"[0] && "pn"[0] != "am"[0];
    assert Get(pairs, "pa") == Some(a);
    assert pairs[1..] == [("pn", b), ("am", c)];
    assert Get(pairs, "pn") == Some(b);
    assert pairs[1..][1..] == [("am", c)];
    assert Get(pairs[1..][1..], "am") == Some(c);
    assert Get(pairs[1..], "am") == Some(c);
    assert Get(pairs, "am") == Some(c);
  }

  /** A payment to `a`, named `b`, for the amount `c`, all three non-empty and
      free of characters that need escaping, reads back as those three values
      with the currency defaulting to INR and the rest empty. */
  lemma PlainUpiPayload(a: string, b: string, c: string, timestamp: int)
    requires IsPlain(a) && IsPlain(b) && IsPlain(c)
    requires a != "" && b != "" && c != ""
    ensures var text := UpiPrefix + ("pa=" + a + "&" + ("pn=" + b + "&" + ("am=" + c)));
            ParseQRData(text, timestamp) == Success(ScanData(text, timestamp, UpiFields(a, b, c, "INR", "", "", "")))
  {
    var pairs := [("pa", a), ("pn", b), ("am", c)];
    var text := UpiPrefix + ("pa=" + a + "&" + ("pn=" + b + "&" + ("am=" + c)));
    assert text == UpiPrefix + Serialize(pairs) by {
      ThreePairsSerialized(a, b, c);
    }
    assert UpiFieldsOf(pairs) == UpiFields(a, b, c, "INR", "", "", "") by {
      ThreePairsFields(a, b, c);
    }
    UpiPayloadRoundTrip(pairs, timestamp);
  }

  const ExampleUpiText: string := "upi://pay?pa=merchant@bank&pn=Joe&am=12.50"

  lemma ExampleUpiParts()
    ensures IsPlain("merchant@bank") && IsPlain("Joe") && IsPlain("12.50")
    ensures ExampleUpiText == UpiPrefix + ("pa=" + "merchant@bank" + "&" + ("pn=" + "Joe" + "&" + ("am=" + "12.50")))
  {
  }

  /** The payload `upi://pay?pa=merchant@bank&pn=Joe&am=12.50`. */
  lemma ExampleUpiPayload(timestamp: int)
    ensures ParseQRData(ExampleUpiText, timestamp)
            == Success(ScanData(ExampleUpiText, timestamp, UpiFields("merchant@bank", "Joe", "12.50", "INR", "", "", "")))
  {
    ExampleUpiParts();
    PlainUpiPayload("merchant@bank", "Joe", "12.50", timestamp);
  }

  /** The empty scan is Text with an empty `text` field. */
  lemma ExampleEmptyText(timestamp: int)
    ensures ParseQRData("", timestamp) == Success(ScanData("", timestamp, TextFields("")))
  {
    assert !Contains("", "pa=") && !Contains("", "pn=");
  }

  const ExamplePhoneText: string := "+1 (555) 123-4567"

  lemma ExamplePhoneShape()
    ensures MatchesPhonePattern(ExamplePhoneText)
  {
    var t := ExamplePhoneText[1..];
    assert t == "1 (555) 123-4567";
    forall i | 0 <= i < |t| ensures IsPhoneChar(t[i]) {
      assert t[i] in "1 (5)23-4567";
    }
  }

  lemma ExamplePhoneNotUpi()
    ensures !IsUpiCandidate(ExamplePhoneText) && !StartsWith(ExamplePhoneText, "http")
    ensures !StartsWith(ExamplePhoneText, "https") && !Contains(ExamplePhoneText, "@")
  {
    var s := ExamplePhoneText;
    assert s[0] == '+';
    assert 'p' !in s && 'u' !in s && '@' !in s && 'h' !in s;
    NotContainsWithoutFirstChar(s, "pa=");
    NotContainsWithoutFirstChar(s, "pn=");
    NotContainsWithoutFirstChar(s, "@");
  }

  /** `"+1 (555) 123-4567"` is a phone number. */
  lemma ExamplePhone(timestamp: int)
    ensures ParseQRData(ExamplePhoneText, timestamp)
            == Success(ScanData(ExamplePhoneText, timestamp, PhoneFields(ExamplePhoneText)))
  {
    ExamplePhoneNotUpi();
    ExamplePhoneShape();
  }

  // ----- display helpers ----------------------------------------------------------

  /** `formatFieldLabel`: the label of a field key, or the key itself. */
  function FormatFieldLabel(key: string): string
  {
    if key == "payeeAddress" then "UPI ID"
    else if key == "payeeName" then "Merchant"
    else if key == "amount" then "Amount"
    else if key == "currency" then "Currency"
    else if key == "transactionNote" then "Note"
    else if key == "transactionRef" then "Reference"
    else if key == "merchantCode" then "Merchant Code"
    else if key == "url" then "URL"
    else if key == "email" then "Email"
    else if key == "phone" then "Phone"
    else if key == "text" then "Text"
    else key
  }

  /** Every key the classifier produces has a label of its own. */
  lemma EveryFieldHasLabel(f: Fields, i: nat)
    requires i < |f.Entries()|
    ensures FormatFieldLabel(f.Entries()[i].0) != f.Entries()[i].0
  {
  }

  /** `getTypeIcon`: the icon of a type name, `qrcode` for any other. */
  function GetTypeIcon(typeName: string): (icon: string)
    ensures icon == "qrcode" <==> typeName !in {"UPI", "URL", "Email", "Phone", "Text"}
  {
    if typeName == "UPI" then "mobile-alt"
    else if typeName == "URL" then "link"
    else if typeName == "Email" then "envelope"
    else if typeName == "Phone" then "phone"
    else if typeName == "Text" then "file-text"
    else "qrcode"
  }

  /** The five scan types have five different icons. */
  lemma TypeIconsDistinct(a: ScanType, b: ScanType)
    requires a != b
    ensures GetTypeIcon(TypeName(a)) != GetTypeIcon(TypeName(b))
  {
  }

  /** A value the result card and the payment modal display. */
  predicate IsShownValue(v: string) { v != "" && v != "0" && v != "Unknown" }

  /** The label-value rows of the payment modal: the entries whose value is
      shown, labelled, in order. */
  function PaymentDetails(entries: seq<(string, string)>): (rows: seq<(string, string)>)
    ensures |rows| <= |entries|
    ensures forall i :: 0 <= i < |rows| ==> IsShownValue(rows[i].1)
    ensures forall i :: 0 <= i < |entries| && IsShownValue(entries[i].1)
                        ==> (FormatFieldLabel(entries[i].0), entries[i].1) in rows
    ensures forall r :: r in rows ==> exists i :: 0 <= i < |entries| && r == (FormatFieldLabel(entries[i].0), entries[i].1)
  {
    if |entries| == 0 then []
    else
      var rest := PaymentDetails(entries[1..]);
      assert forall i :: 1 <= i < |entries| ==> entries[i] == entries[1..][i - 1];
      if IsShownValue(entries[0].1) then [(FormatFieldLabel(entries[0].0), entries[0].1)] + rest
      else rest
  }

  // ----- history and feed ---------------------------------------------------------

  /** Puts `x` in front of `xs` and keeps the first `cap` elements. */
  function PushCapped<T>(xs: seq<T>, x: T, cap: nat): (r: seq<T>)
    requires cap > 0
    ensures |r| == Min(|xs| + 1, cap)
    ensures r[0] == x
    ensures forall i :: 1 <= i < |r| ==> r[i] == xs[i - 1]
  {
    ([x] + xs)[..Min(|xs| + 1, cap)]
  }

  function Reverse<T>(xs: seq<T>): (r: seq<T>)
    ensures |r| == |xs|
  {
    if |xs| == 0 then [] else [xs[|xs| - 1]] + Reverse(xs[..|xs| - 1])
  }

  /** The history after adding `entries` one after the other. */
  function AddAll(history: seq<HistoryEntry>, entries: seq<HistoryEntry>): seq<HistoryEntry>
  {
    if |entries| == 0 then history
    else PushCapped(AddAll(history, entries[..|entries| - 1]), entries[|entries| - 1], MaxHistory)
  }

  /** Newest first, capped at 50: after any run of additions the history is
      the additions in reverse followed by the older entries, cut to 50, so
      the oldest are the ones evicted. */
  lemma {:induction false} AddAllNewestFirst(history: seq<HistoryEntry>, entries: seq<HistoryEntry>)
    requires |history| <= MaxHistory
    ensures AddAll(history, entries)
            == (Reverse(entries) + history)[..Min(|entries| + |history|, MaxHistory)]
  {
    if |entries| > 0 {
      var init := entries[..|entries| - 1];
      var last := entries[|entries| - 1];
      AddAllNewestFirst(history, init);
      var prev := AddAll(history, init);
      assert Reverse(entries) == [last] + Reverse(init);
      var all := Reverse(entries) + history;
      var r := AddAll(history, entries);
      assert r == PushCapped(prev, last, MaxHistory);
      assert |r| == Min(|entries| + |history|, MaxHistory);
      forall i | 0 <= i < |r| ensures r[i] == all[i] {
        if i > 0 {
          assert r[i] == prev[i - 1];
          assert all[i] == (Reverse(init) + history)[i - 1];
        }
      }
    }
  }

  /** Fifty-one additions to an empty history leave the last fifty, newest
      first. */
  lemma FiftyOneAdditions(entries: seq<HistoryEntry>)
    requires |entries| == 51
    ensures |AddAll([], entries)| == 50
    ensures AddAll([], entries)[0] == entries[50]
    ensures AddAll([], entries)[49] == entries[1]
  {
    AddAllNewestFirst([], entries);
    assert Reverse(entries) + [] == Reverse(entries);
    ReverseAt(entries, 0);
    ReverseAt(entries, 49);
  }

  lemma {:induction false} ReverseAt<T>(xs: seq<T>, k: nat)
    requires k < |xs|
    ensures Reverse(xs)[k] == xs[|xs| - 1 - k]
  {
    if k > 0 {
      ReverseAt(xs[..|xs| - 1], k - 1);
    }
  }

  /** Position of the first history entry with the id, as `find` returns it. */
  function FirstWithId(history: seq<HistoryEntry>, id: int): (r: Option<nat>)
    ensures r.Some? ==> r.value < |history| && history[r.value].id == id
                        && forall j :: 0 <= j < r.value ==> history[j].id != id
    ensures r.None? ==> forall j :: 0 <= j < |history| ==> history[j].id != id
  {
    if |history| == 0 then None
    else if history[0].id == id then Some(0)
    else
      match FirstWithId(history[1..], id)
      case None => None
      case Some(k) => Some(k + 1)
  }

  /** The calendar day of a timestamp in a time zone `offsetMs` ahead of UTC. */
  function LocalDay(timestampMs: int, offsetMs: int): int
  {
    (timestampMs + offsetMs) / MsPerDay
  }

  /** `scanHistory.filter(s => same day).length`: how many entries fall on
      `day`; none exactly when no entry does, all exactly when every one does. */
  function CountOnDay(history: seq<HistoryEntry>, day: int, offsetMs: int): (n: nat)
    ensures n <= |history|
    ensures n == 0 <==> forall i :: 0 <= i < |history| ==> LocalDay(history[i].scan.timestamp, offsetMs) != day
    ensures n == |history| <==> forall i :: 0 <= i < |history| ==> LocalDay(history[i].scan.timestamp, offsetMs) == day
  {
    if |history| == 0 then 0
    else (if LocalDay(history[0].scan.timestamp, offsetMs) == day then 1 else 0)
         + CountOnDay(history[1..], day, offsetMs)
  }

  /** Counting is additive: the scans of a day in `a + b` are those in `a`
      and those in `b`. */
  lemma {:induction false} CountOnDayConcat(a: seq<HistoryEntry>, b: seq<HistoryEntry>, day: int, offsetMs: int)
    ensures CountOnDay(a + b, day, offsetMs) == CountOnDay(a, day, offsetMs) + CountOnDay(b, day, offsetMs)
  {
    if |a| > 0 {
      assert (a + b)[1..] == a[1..] + b;
      CountOnDayConcat(a[1..], b, day, offsetMs);
    } else {
      assert a + b == b;
    }
  }

  /** A new scan counts for its own day: adding it to the front raises that
      day's count by one and leaves every other day's count alone. */
  lemma NewScanCounted(history: seq<HistoryEntry>, e: HistoryEntry, day: int, offsetMs: int)
    ensures CountOnDay([e] + history, day, offsetMs)
            == CountOnDay(history, day, offsetMs) + (if LocalDay(e.scan.timestamp, offsetMs) == day then 1 else 0)
  {
    CountOnDayConcat([e], history, day, offsetMs);
    assert CountOnDay([e], day, offsetMs) == (if LocalDay(e.scan.timestamp, offsetMs) == day then 1 else 0) by {
      assert [e][1..] == [];
    }
  }

  /** `${n} scan${n !== 1 ? 's' : ''} today`. */
  function ScanCountLabel(n: nat): string
  {
    NatToString(n) + " scan" + (if n != 1 then "s" else "") + " today"
  }

  /** The count label names the count: its first number is `n`. */
  lemma ScanCountLabelNamesCount(n: nat)
    ensures FirstDigitRun(ScanCountLabel(n)).Some?
    ensures ParseDecimal(FirstDigitRun(ScanCountLabel(n)).value) == n
  {
    var rest := " scan" + (if n != 1 then "s" else "") + " today";
    assert ScanCountLabel(n) == NatToString(n) + rest;
    FirstDigitRunOfPrefix(NatToString(n), rest);
    ParseNatToString(n);
  }

  // ----- the payment modal's outcome ------------------------------------------------

  /** `appNames[app]` in a template literal: the app's name, or "undefined" for
      an app the table lacks and for a `null` selection. */
  function AppDisplayName(app: Option<string>): string
  {
    if app == Some("gpay") then "Google Pay"
    else if app == Some("phonepe") then "PhonePe"
    else if app == Some("paytm") then "Paytm"
    else if app == Some("bhim") then "BHIM UPI"
    else "undefined"
  }

  predicate IsKnownApp(app: string) { app in {"gpay", "phonepe", "paytm", "bhim"} }

  /** `!this.selectedApp` is false: an app is chosen (not null, not empty). */
  predicate AppChosen(selected: Option<string>) { selected.Some? && selected.value != "" }

  /** The messages `proceedToPayment` shows as written: the first names the
      app chosen, the second the selection as it is once the delayed callback
      has run `closeModal`. */
  function PaymentMessagesAsWritten(app: string, afterClose: Option<string>): seq<string>
  {
    ["Opening " + AppDisplayName(Some(app)) + "...",
     "Payment initiated via " + AppDisplayName(afterClose)]
  }

  /** As written, the outcome never names the app: `closeModal` leaves no
      selection, so it always reads "Payment initiated via undefined". */
  lemma AsWrittenPaymentNamesNoApp(app: string)
    requires IsKnownApp(app)
    ensures PaymentMessagesAsWritten(app, None)[1] == "Payment initiated via undefined"
    ensures PaymentMessagesAsWritten(app, None)[1] != PaymentMessages(app)[1]
  {
    assert |AppDisplayName(Some(app))| != |"undefined"|;
  }

  /** The messages with the app's name taken before the modal closes. */
  function PaymentMessages(app: string): (msgs: seq<string>)
    ensures |msgs| == 2
    ensures IsKnownApp(app) ==> msgs[1] != "Payment initiated via undefined"
    ensures msgs[0] == "Opening " + AppDisplayName(Some(app)) + "..."
    ensures msgs[1] == "Payment initiated via " + AppDisplayName(Some(app))
  {
    var name := AppDisplayName(Some(app));
    assert IsKnownApp(app) ==> |name| != |"undefined"|;
    assert IsKnownApp(app) ==> ("Payment initiated via " + name)[22..] == name;
    ["Opening " + name + "...", "Payment initiated via " + name]
  }

  // ----- the scanner manager ------------------------------------------------------

  class QRScannerManager {
    var scanHistory: seq<HistoryEntry>
    /** What `localStorage` holds under `qrScanHistory`. */
    var savedHistory: seq<HistoryEntry>
    /** The result cards, newest first. */
    var results: seq<ScanData>
    var selectedApp: Option<string>
    var modalOpen: bool
    var paymentDetails: seq<(string, string)>
    var isScanning: bool
    /** `this.scanner !== null`. */
    var hasScanner: bool

    ghost predicate Valid()
      reads this
    {
      |results| <= MaxResults && (isScanning ==> hasScanner)
    }

    /** `loadScanHistory`: the stored history, or empty when nothing (or
        nothing readable) is stored. */
    constructor (stored: Option<seq<HistoryEntry>>)
      ensures Valid()
      ensures scanHistory == (if stored.Some? then stored.value else [])
      ensures savedHistory == scanHistory
      ensures results == [] && selectedApp == None && !modalOpen && paymentDetails == []
      ensures !isScanning && !hasScanner
    {
      scanHistory := if stored.Some? then stored.value else [];
      savedHistory := scanHistory;
      results := [];
      selectedApp := None;
      modalOpen := false;
      paymentDetails := [];
      isScanning := false;
      hasScanner := false;
    }

    /** `toggleCamera`: starts a scanner (which may fail to start) or stops
        and drops the running one. */
    method ToggleCamera(startSucceeds: bool)
      requires Valid()
      modifies this`isScanning, this`hasScanner
      ensures Valid()
      ensures old(isScanning) ==> !isScanning && !hasScanner
      ensures !old(isScanning) ==> hasScanner && isScanning == startSucceeds
    {
      if !isScanning {
        hasScanner := true;
        if startSucceeds {
          isScanning := true;
        }
      } else {
        hasScanner := false;
        isScanning := false;
      }
    }

    /** `displayResult`: the new card goes first; a sixth card is removed. */
    method DisplayResult(scan: ScanData)
      requires Valid()
      modifies this`results
      ensures Valid()
      ensures results == PushCapped(old(results), scan, MaxResults)
    {
      var feed := [scan] + results;
      if |feed| > MaxResults {
        feed := feed[..|feed| - 1];
      }
      results := feed;
    }

    /** `addToHistory`: `unshift` then `slice(0, 50)`, then saved. */
    method AddToHistory(scan: ScanData, id: int)
      modifies this`scanHistory, this`savedHistory
      ensures scanHistory == PushCapped(old(scanHistory), HistoryEntry(scan, id), MaxHistory)
      ensures savedHistory == scanHistory
    {
      scanHistory := [HistoryEntry(scan, id)] + scanHistory;
      if |scanHistory| > MaxHistory {
        scanHistory := scanHistory[..MaxHistory];
      }
      savedHistory := scanHistory;
    }

    /** `showUPIModal`: fills the details, clears the app choice, opens. */
    method ShowUPIModal(scan: ScanData)
      modifies this`modalOpen, this`selectedApp, this`paymentDetails
      ensures modalOpen && selectedApp == None
      ensures paymentDetails == PaymentDetails(scan.fields.Entries())
    {
      paymentDetails := PaymentDetails(scan.fields.Entries());
      selectedApp := None;
      modalOpen := true;
    }

    /** `selectUPIApp`: records the button's `data-app` (absent: `None`). */
    method SelectUPIApp(app: Option<string>)
      modifies this`selectedApp
      ensures selectedApp == app
    {
      selectedApp := app;
    }

    /** `closeModal`, also bound to the Escape key while the modal is open. */
    method CloseModal()
      modifies this`modalOpen, this`selectedApp
      ensures !modalOpen && selectedApp == None
    {
      modalOpen := false;
      selectedApp := None;
    }

    method OnEscapeKey()
      modifies this`modalOpen, this`selectedApp
      ensures old(modalOpen) ==> !modalOpen && selectedApp == None
      ensures !old(modalOpen) ==> !modalOpen && selectedApp == old(selectedApp)
    {
      if modalOpen {
        CloseModal();
      }
    }

    /** `proceedToPayment`: nothing while no app is chosen; otherwise the two
        messages, and the modal closes (the delay before closing is taken as
        immediate). */
    method ProceedToPayment() returns (messages: seq<string>)
      modifies this`modalOpen, this`selectedApp
      ensures !AppChosen(old(selectedApp)) ==>
                messages == [] && modalOpen == old(modalOpen) && selectedApp == old(selectedApp)
      ensures AppChosen(old(selectedApp)) ==>
                messages == PaymentMessages(old(selectedApp).value) && !modalOpen && selectedApp == None
    {
      if !AppChosen(selectedApp) {
        return [];
      }
      messages := PaymentMessages(selectedApp.value);
      CloseModal();
    }

    /** `proceedToPayment` as written: the second message reads `selectedApp`
        after `closeModal` has reset it. */
    method ProceedToPaymentAsWritten() returns (messages: seq<string>)
      modifies this`modalOpen, this`selectedApp
      ensures !AppChosen(old(selectedApp)) ==>
                messages == [] && modalOpen == old(modalOpen) && selectedApp == old(selectedApp)
      ensures AppChosen(old(selectedApp)) ==>
                messages == PaymentMessagesAsWritten(old(selectedApp).value, selectedApp)
                && !modalOpen && selectedApp == None
      ensures AppChosen(old(selectedApp)) ==> messages[1] == "Payment initiated via undefined"
    {
      if !AppChosen(selectedApp) {
        return [];
      }
      var opening := "Opening " + AppDisplayName(selectedApp) + "...";
      CloseModal();
      messages := [opening, "Payment initiated via " + AppDisplayName(selectedApp)];
    }

    /** `handleScanResult`: classify, show the card, record the scan, and open
        the payment modal for a UPI scan. Where classifying throws, nothing
        changes. */
    method HandleScanResult(text: string, timestamp: int, id: int) returns (r: Result<ScanData, ScanError>)
      requires Valid()
      modifies this`results, this`scanHistory, this`savedHistory, this`modalOpen,
               this`selectedApp, this`paymentDetails
      ensures Valid()
      ensures r == ParseQRData(text, timestamp)
      ensures r.Failure? ==> results == old(results) && scanHistory == old(scanHistory)
                             && savedHistory == old(savedHistory) && modalOpen == old(modalOpen)
                             && selectedApp == old(selectedApp) && paymentDetails == old(paymentDetails)
      ensures r.Success? ==> results == PushCapped(old(results), r.value, MaxResults)
                             && scanHistory == PushCapped(old(scanHistory), HistoryEntry(r.value, id), MaxHistory)
                             && savedHistory == scanHistory
      ensures r.Success? && r.value.fields.Type() == UPI ==>
                modalOpen && selectedApp == None && paymentDetails == PaymentDetails(r.value.fields.Entries())
      ensures r.Success? && r.value.fields.Type() != UPI ==>
                modalOpen == old(modalOpen) && selectedApp == old(selectedApp)
                && paymentDetails == old(paymentDetails)
    {
      r := ParseQRData(text, timestamp);
      if r.Failure? {
        return;
      }
      DisplayResult(r.value);
      AddToHistory(r.value, id);
      if r.value.fields.Type() == UPI {
        ShowUPIModal(r.value);
      }
    }

    /** `handleImageUpload` after the image decoder ran: the message shown,
        none when no file was chosen. A payload that makes classifying throw
        is reported as no QR code. */
    method HandleImageUpload(upload: ImageUpload, timestamp: int, id: int) returns (message: Option<string>)
      requires Valid()
      modifies this`results, this`scanHistory, this`savedHistory, this`modalOpen,
               this`selectedApp, this`paymentDetails
      ensures Valid()
      ensures upload.NoFile? ==> message == None
      ensures upload.Undecodable? ==> message == Some("No QR code found in image")
      ensures upload.Decoded? ==>
                message == Some(if ParseQRData(upload.text, timestamp).Success?
                                then "QR code detected in image" else "No QR code found in image")
      ensures !upload.Decoded? ==>
                results == old(results) && scanHistory == old(scanHistory) && savedHistory == old(savedHistory)
                && modalOpen == old(modalOpen) && selectedApp == old(selectedApp)
                && paymentDetails == old(paymentDetails)
    {
      match upload
      case NoFile =>
        message := None;
      case Undecodable =>
        message := Some("No QR code found in image");
      case Decoded(text) =>
        var r := HandleScanResult(text, timestamp, id);
        message := Some(if r.Success? then "QR code detected in image" else "No QR code found in image");
    }

    /** `showHistoryDetails`: reopens the payment modal for the first entry
        with the id, when that entry is a UPI scan. */
    method ShowHistoryDetails(scanId: int)
      modifies this`modalOpen, this`selectedApp, this`paymentDetails
      ensures var k := FirstWithId(scanHistory, scanId);
              if k.Some? && scanHistory[k.value].scan.fields.Type() == UPI then
                modalOpen && selectedApp == None
                && paymentDetails == PaymentDetails(scanHistory[k.value].scan.fields.Entries())
              else
                modalOpen == old(modalOpen) && selectedApp == old(selectedApp)
                && paymentDetails == old(paymentDetails)
    {
      var k := FirstWithId(scanHistory, scanId);
      if k.Some? && scanHistory[k.value].scan.fields.Type() == UPI {
        ShowUPIModal(scanHistory[k.value].scan);
      }
    }

    /** `clearResults`: empties the result feed only. */
    method ClearResults()
      requires Valid()
      modifies this`results
      ensures Valid() && results == []
    {
      results := [];
    }

    /** `updateScanCount`: the label for the scans of `today`. */
    function ScanCountText(today: int, offsetMs: int): string
      reads this
    {
      ScanCountLabel(CountOnDay(scanHistory, today, offsetMs))
    }
  }
}
