/**
 * The part of Go's `net/url` the registry client relies on: `url.Parse`
 * splits an address into its scheme (lower-cased) and the rest, and
 * `(*URL).String` puts them back together.  An address is modelled as that
 * (scheme, rest) pair; authority, path, query and fragment stay inside the
 * rest, unparsed.
 */
module Url {
  import opened Wrappers
  import opened Text

  datatype Url = Url(scheme: string, rest: string)

  predicate IsCtl(c: char) {
    c as int < 0x20 || c as int == 0x7F
  }

  predicate HasCtl(s: string) {
    exists i :: 0 <= i < |s| && IsCtl(s[i])
  }

  predicate IsLetter(c: char) {
    'a' <= c <= 'z' || 'A' <= c <= 'Z'
  }

  predicate IsSchemeChar(c: char) {
    IsLetter(c) || IsDigit(c) || c == '+' || c == '-' || c == '.'
  }

  /** A scheme that `Parse` reads back unchanged: a lower-case letter, then scheme characters, no upper case. */
  predicate ValidScheme(s: string) {
    |s| > 0 && 'a' <= s[0] <= 'z' &&
    forall i :: 0 <= i < |s| ==> IsSchemeChar(s[i]) && !('A' <= s[i] <= 'Z')
  }

  /** Outcome of the scan for a scheme (Go's `getScheme`). */
  datatype SchemeScan = NoScheme | MissingScheme | SchemeEnds(at: nat)

  function ScanScheme(raw: string, i: nat): (r: SchemeScan)
    requires i <= |raw|
    ensures r.SchemeEnds? ==> i <= r.at < |raw| && 0 < r.at && raw[r.at] == ':'
    ensures r.SchemeEnds? ==> forall j :: i <= j < r.at ==> IsSchemeChar(raw[j])
    ensures r.SchemeEnds? && i == 0 ==> IsLetter(raw[0])
    decreases |raw| - i
  {
    if i == |raw| then NoScheme
    else if IsLetter(raw[i]) then ScanScheme(raw, i + 1)
    else if IsDigit(raw[i]) || raw[i] == '+' || raw[i] == '-' || raw[i] == '.' then
      (if i == 0 then NoScheme else ScanScheme(raw, i + 1))
    else if raw[i] == ':' then (if i == 0 then MissingScheme else SchemeEnds(i))
    else NoScheme
  }

  /** A ':' comes before the first '/', '?' or '#'. */
  predicate ColonInFirstSegment(s: string)
    decreases |s|
  {
    |s| > 0 && s[0] != '/' && s[0] != '?' && s[0] != '#' &&
    (s[0] == ':' || ColonInFirstSegment(s[1..]))
  }

  /**
   * Go's `url.Parse`, as far as scheme handling goes: control characters and
   * a leading ':' are rejected, the scheme is lower-cased, and a relative
   * address whose first segment holds a ':' is rejected.
   */
  function Parse(raw: string): Result<Url, string> {
    if HasCtl(raw) then Err("net/url: invalid control character in URL")
    else
      match ScanScheme(raw, 0)
      case MissingScheme => Err("missing protocol scheme")
      case NoScheme =>
        if ColonInFirstSegment(raw) then Err("first path segment in URL cannot contain colon")
        else Ok(Url("", raw))
      case SchemeEnds(e) => Ok(Url(Lower(raw[..e]), raw[e + 1..]))
  }

  /** Go's `(*URL).String` on the (scheme, rest) pair. */
  function ToString(u: Url): string {
    if u.scheme == "" then u.rest else u.scheme + ":" + u.rest
  }

  lemma {:induction false} ScanFindsScheme(raw: string, i: nat, e: nat)
    requires i <= e < |raw| && raw[e] == ':'
    requires forall j :: i <= j < e ==> IsSchemeChar(raw[j])
    requires i == 0 ==> e > 0 && IsLetter(raw[0])
    ensures ScanScheme(raw, i) == SchemeEnds(e)
    decreases e - i
  {
    if i < e {
      ScanFindsScheme(raw, i + 1, e);
    }
  }

  /** Printing a parsed address gives it back, when it has no upper-case letters. */
  lemma ToStringParse(s: string)
    requires Parse(s).Ok?
    requires Lower(s) == s
    ensures ToString(Parse(s).value) == s
  {
    match ScanScheme(s, 0)
    case NoScheme =>
    case MissingScheme =>
    case SchemeEnds(e) =>
      assert Lower(s[..e]) == s[..e] by {
        forall j | 0 <= j < e ensures Lower(s[..e])[j] == s[..e][j] {
          assert Lower(s)[j] == s[j];
        }
      }
      assert s == s[..e] + ":" + s[e + 1..];
  }

  /** Parsing a printed address with a valid scheme gives it back. */
  lemma ParseToString(u: Url)
    requires ValidScheme(u.scheme) && !HasCtl(u.rest)
    ensures Parse(ToString(u)) == Ok(u)
  {
    var s := ToString(u);
    var e := |u.scheme|;
    assert s[..e] == u.scheme && s[e + 1..] == u.rest;
    forall i | 0 <= i < |s| ensures !IsCtl(s[i]) {
      if i > e {
        assert s[i] == u.rest[i - e - 1];
      }
    }
    ScanFindsScheme(s, 0, e);
    assert Lower(u.scheme) == u.scheme;
  }
}
