/** The cookie lookup of the sign-in page (static/js/auth.js, `getCookie`):
    `document.cookie` is a `;`-separated list of `name=value` entries, as in
    section 5.4 of RFC 6265. `decodeURIComponent` is a parameter. */
module Auth {
  import opened Common

  /** An entry names the cookie when, trimmed, it starts with `name=`. */
  predicate Names(entry: string, name: string)
  {
    StartsWith(Trim(entry), name + "=")
  }

  /** What follows `name=` in the trimmed entry. */
  function ValueOf(entry: string, name: string): string
    requires Names(entry, name)
  {
    Trim(entry)[|name| + 1..]
  }

  /** Position of the first entry that names the cookie. */
  function FirstIndex(entries: seq<string>, name: string): (r: Option<nat>)
    ensures r.Some? ==> r.value < |entries| && Names(entries[r.value], name)
                        && forall j :: 0 <= j < r.value ==> !Names(entries[j], name)
    ensures r.None? ==> forall j :: 0 <= j < |entries| ==> !Names(entries[j], name)
  {
    if |entries| == 0 then None
    else if Names(entries[0], name) then Some(0)
    else
      match FirstIndex(entries[1..], name)
      case None => None
      case Some(k) => Some(k + 1)
  }

  /** The cookie string as `getCookie` reads it: nothing when empty, else
      the decoded value of the first entry naming the cookie. */
  function CookieValue(cookie: string, name: string, decode: string -> string): (r: Option<string>)
    ensures cookie == "" ==> r.None?
  {
    if cookie == "" then None
    else
      var entries := Split(cookie, ';');
      match FirstIndex(entries, name)
      case None => None
      case Some(k) => Some(decode(ValueOf(entries[k], name)))
  }

  /** `getCookie`: scans the entries in order and stops at the first match. */
  method GetCookie(cookie: string, name: string, decode: string -> string) returns (cookieValue: Option<string>)
    ensures cookieValue == CookieValue(cookie, name, decode)
  {
    cookieValue := None;
    if cookie != "" {
      var cookies := Split(cookie, ';');
      var k := 0;
      while k < |cookies|
        invariant 0 <= k <= |cookies|
        invariant forall j :: 0 <= j < k ==> !Names(cookies[j], name)
        invariant cookieValue == None
      {
        var entry := Trim(cookies[k]);
        if StartsWith(entry, name + "=") {
          cookieValue := Some(decode(entry[|name| + 1..]));
          assert FirstIndex(cookies, name) == Some(k);
          break;
        }
        k := k + 1;
      }
    }
  }

  /** A cookie whose name only begins with `name` is not taken for it. */
  lemma LongerNameNotMatched(entry: string, name: string, c: char)
    requires c != '=' && StartsWith(Trim(entry), name + [c])
    ensures !Names(entry, name)
  {
    assert Trim(entry)[|name|] == (name + [c])[|name|];
  }

  /** Trimming a space in front of a word without white space gives the word. */
  lemma {:induction false} TrimLeadingSpace(word: string)
    requires forall i :: 0 <= i < |word| ==> !IsJsWhitespace(word[i])
    ensures Trim(" " + word) == word
  {
    var s := " " + word;
    assert s[1..] == word;
    assert TrimStartIndex(word) == 0;
    assert TrimStartIndex(s) == 1;
  }

  /** `a; b` splits into `a` and ` b` when neither holds a `;`. */
  lemma SplitTwoEntries(a: string, b: string)
    requires ';' !in a && ';' !in b
    ensures Split(a + "; " + b, ';') == [a, " " + b]
  {
    assert a + "; " + b == a + [';'] + (" " + b);
    SplitAfterFirst(a, " " + b, ';');
    SplitWithoutSep(" " + b, ';');
  }

  /** In `a; name=v`, the second entry is found when the first one does not
      name the cookie, whatever the decoder. */
  lemma SecondEntryFound(a: string, name: string, v: string, decode: string -> string)
    requires ';' !in a && forall i :: 0 <= i < |a| ==> !IsJsWhitespace(a[i])
    requires !StartsWith(a, name + "=")
    requires ';' !in name + "=" + v
    requires forall i :: 0 <= i < |name + "=" + v| ==> !IsJsWhitespace((name + "=" + v)[i])
    ensures CookieValue(a + "; " + name + "=" + v, name, decode) == Some(decode(v))
  {
    var b := name + "=" + v;
    assert a + "; " + name + "=" + v == a + "; " + b;
    SplitTwoEntries(a, b);
    var entries := [a, " " + b];
    assert !Names(entries[0], name);
    assert Names(entries[1], name) && ValueOf(entries[1], name) == v by {
      TrimLeadingSpace(b);
      assert StartsWith(b, name + "=");
    }
    assert FirstIndex(entries, name) == Some(1);
  }
}
