/** The command line's handling of the start URL (cli.py): `validate_url`, which
    supplies a missing scheme and matches the result against a URL pattern, and
    `generate_testcase_name`, which derives the default test-case name from the
    URL's network location and path. */
module Cli {
  import opened Wrappers
  import opened Strings

  // ---------------------------------------------------------------------------
  // The URL pattern, matched case-insensitively
  // ---------------------------------------------------------------------------

  /** The character a case-insensitive match compares: ASCII capitals and the four
      non-ASCII characters that fold onto ASCII letters (dotted capital I, dotless i,
      long s and the Kelvin sign). */
  function Fold(c: char): char {
    if 'A' <= c <= 'Z' then (c as int + 32) as char
    else if c == 'İ' || c == 'ı' then 'i'
    else if c == 'ſ' then 's'
    else if c == 'K' then 'k'
    else c
  }

  /** `[A-Z]` under IGNORECASE. */
  predicate IsLetter(c: char) { 'a' <= Fold(c) <= 'z' }

  /** `[A-Z0-9]` under IGNORECASE. */
  predicate IsLetterOrDigit(c: char) { IsLetter(c) || IsAsciiDigit(c) }

  /** `s` matches the lower-case literal `lit` case-insensitively. */
  predicate FoldEq(s: string, lit: string) {
    |s| == |lit| && forall i :: 0 <= i < |s| ==> Fold(s[i]) == lit[i]
  }

  /** Python's white space, the complement of `\S`. */
  predicate IsPySpace(c: char) {
    ('\t' <= c <= '\r') || ('\U{001C}' <= c <= ' ') || c == '\U{0085}' || c == '\U{00A0}'
    || c == '\U{1680}' || ('\U{2000}' <= c <= '\U{200A}') || c == '\U{2028}' || c == '\U{2029}'
    || c == '\U{202F}' || c == '\U{205F}' || c == '\U{3000}'
  }

  /** `https?://` */
  predicate IsScheme(s: string) {
    && (|s| == 7 || |s| == 8)
    && Fold(s[0]) == 'h' && Fold(s[1]) == 't' && Fold(s[2]) == 't' && Fold(s[3]) == 'p'
    && (if |s| == 8 then Fold(s[4]) == 's' && s[5..] == "://" else s[4..] == "://")
  }

  /** One domain label: 1 to 63 letters, digits and hyphens, not starting or ending
      with a hyphen. */
  predicate IsLabel(l: string) {
    && 1 <= |l| <= 63
    && IsLetterOrDigit(l[0]) && IsLetterOrDigit(l[|l| - 1])
    && forall i :: 0 <= i < |l| ==> IsLetterOrDigit(l[i]) || l[i] == '-'
  }

  /** One or more labels, each followed by a dot. */
  predicate IsLabels(x: string)
    decreases |x|
  {
    exists m | 0 < m < |x| :: x[m] == '.' && IsLabel(x[..m]) && (m + 1 == |x| || IsLabels(x[m + 1..]))
  }

  /** The top-level domain: 2 to 6 letters and an optional final dot. */
  predicate IsTld(t: string) {
    var n := if |t| > 0 && t[|t| - 1] == '.' then |t| - 1 else |t|;
    2 <= n <= 6 && forall i :: 0 <= i < n ==> IsLetter(t[i])
  }

  predicate IsDomain(h: string) {
    exists k | 0 < k < |h| :: IsLabels(h[..k]) && IsTld(h[k..])
  }

  predicate IsLocalhost(h: string) {
    FoldEq(h, "localhost")
  }

  /** `\d{1,3}` */
  predicate IsOctet(s: string) {
    1 <= |s| <= 3 && AllDigits(s)
  }

  /** `n` groups of one to three digits separated by dots. */
  predicate IsOctets(h: string, n: nat)
    decreases n
  {
    if n <= 1 then IsOctet(h)
    else exists m | 0 < m < |h| :: h[m] == '.' && IsOctet(h[..m]) && IsOctets(h[m + 1..], n - 1)
  }

  predicate IsHost(h: string) {
    IsDomain(h) || IsLocalhost(h) || IsOctets(h, 4)
  }

  /** `(?::\d+)?` */
  predicate IsPort(p: string) {
    p == "" || (|p| >= 2 && p[0] == ':' && AllDigits(p[1..]))
  }

  /** `(?:/?|[/?]\S+)` */
  predicate IsTail(t: string) {
    || t == "" || t == "/"
    || (|t| >= 2 && (t[0] == '/' || t[0] == '?') && forall i :: 1 <= i < |t| ==> !IsPySpace(t[i]))
  }

  predicate IsAfterHost(r: string) {
    exists j | 0 <= j <= |r| :: IsPort(r[..j]) && IsTail(r[j..])
  }

  predicate IsAuthorityAndTail(r: string) {
    exists i | 0 <= i <= |r| :: IsHost(r[..i]) && IsAfterHost(r[i..])
  }

  predicate IsWholeUrl(u: string) {
    exists s | 0 <= s <= |u| :: IsScheme(u[..s]) && IsAuthorityAndTail(u[s..])
  }

  /** The whole pattern, anchored: `$` also matches before one final newline. */
  predicate UrlMatches(u: string) {
    IsWholeUrl(u) || (|u| > 0 && u[|u| - 1] == '\n' && IsWholeUrl(u[..|u| - 1]))
  }

  // ---------------------------------------------------------------------------
  // validate_url
  // ---------------------------------------------------------------------------

  /** The URL with `https://` put in front unless it starts with `http://` or
      `https://` (compared case-sensitively). */
  function WithScheme(url: string): (r: string)
    ensures StartsWith(r, "http://") || StartsWith(r, "https://")
    ensures StartsWith(url, "http://") || StartsWith(url, "https://") ==> r == url
    ensures !(StartsWith(url, "http://") || StartsWith(url, "https://")) ==> r == "https://" + url
  {
    if StartsWith(url, "http://") || StartsWith(url, "https://") then url
    else
      assert ("https://" + url)[..8] == "https://";
      "https://" + url
  }

  /** validate_url: the URL with its scheme, or exit status 1 when it does not match
      the pattern. */
  function ValidateUrl(url: string): (r: Result<string, int>)
    ensures r.Success? <==> UrlMatches(WithScheme(url))
    ensures r.Success? ==> r.value == WithScheme(url)
    ensures r.Failure? ==> r.error == 1
  {
    var u := WithScheme(url);
    if UrlMatches(u) then Success(u) else Failure(1)
  }

  // ---------------------------------------------------------------------------
  // What a matching URL looks like
  // ---------------------------------------------------------------------------

  /** The characters a host may contain. */
  predicate IsHostChar(c: char) {
    IsLetterOrDigit(c) || c == '-' || c == '.'
  }

  predicate AllHostChars(s: string) {
    forall i :: 0 <= i < |s| ==> IsHostChar(s[i])
  }

  lemma {:induction false} LabelsChars(x: string)
    requires IsLabels(x)
    ensures AllHostChars(x)
    decreases |x|
  {
    var m :| 0 < m < |x| && x[m] == '.' && IsLabel(x[..m]) && (m + 1 == |x| || IsLabels(x[m + 1..]));
    if m + 1 < |x| {
      LabelsChars(x[m + 1..]);
    }
    forall i | 0 <= i < |x| ensures IsHostChar(x[i]) {
      if i < m {
        assert x[i] == x[..m][i];
      } else if i > m {
        assert x[i] == x[m + 1..][i - m - 1];
      }
    }
  }

  lemma {:induction false} OctetsChars(h: string, n: nat)
    requires IsOctets(h, n)
    ensures |h| > 0 && AllHostChars(h)
    decreases n
  {
    if n > 1 {
      var m :| 0 < m < |h| && h[m] == '.' && IsOctet(h[..m]) && IsOctets(h[m + 1..], n - 1);
      OctetsChars(h[m + 1..], n - 1);
      forall i | 0 <= i < |h| ensures IsHostChar(h[i]) {
        if i < m {
          assert h[i] == h[..m][i];
        } else if i > m {
          assert h[i] == h[m + 1..][i - m - 1];
        }
      }
    }
  }

  /** A host is a non-empty run of letters, digits, hyphens and dots. */
  lemma HostChars(h: string)
    requires IsHost(h)
    ensures |h| > 0 && AllHostChars(h)
  {
    if IsDomain(h) {
      var k :| 0 < k < |h| && IsLabels(h[..k]) && IsTld(h[k..]);
      LabelsChars(h[..k]);
      forall i | 0 <= i < |h| ensures IsHostChar(h[i]) {
        if i < k {
          assert h[i] == h[..k][i];
        } else {
          assert h[i] == h[k..][i - k];
        }
      }
    } else if IsOctets(h, 4) {
      OctetsChars(h, 4);
    }
  }

  /** The text after the scheme of a matching URL: host characters up to `i`, then a
      colon and digits up to `j`, then nothing, or a slash or question mark followed
      by no white space. */
  lemma AuthorityShape(r: string) returns (i: nat, j: nat)
    requires IsAuthorityAndTail(r)
    ensures 0 < i <= j <= |r|
    ensures forall k :: 0 <= k < i ==> IsHostChar(r[k])
    ensures i < j ==> j > i + 1 && r[i] == ':' && forall k :: i < k < j ==> IsAsciiDigit(r[k])
    ensures j < |r| ==> (r[j] == '/' || r[j] == '?') && forall k :: j < k < |r| ==> !IsPySpace(r[k])
  {
    i := HostPrefix(r);
    var a := r[i..];
    var jj := AfterHostShape(a);
    j := i + jj;
    forall k | i <= k < |r| ensures r[k] == a[k - i] { }
  }

  /** The host of a matching authority: a non-empty run of host characters. */
  lemma HostPrefix(r: string) returns (i: nat)
    requires IsAuthorityAndTail(r)
    ensures 0 < i <= |r| && IsAfterHost(r[i..])
    ensures forall k :: 0 <= k < i ==> IsHostChar(r[k])
  {
    i :| 0 <= i <= |r| && IsHost(r[..i]) && IsAfterHost(r[i..]);
    HostChars(r[..i]);
    forall k | 0 <= k < i ensures IsHostChar(r[k]) {
      assert r[k] == r[..i][k];
    }
  }

  /** After the host: a colon and digits up to `j`, then nothing, or a slash or
      question mark followed by no white space. */
  lemma AfterHostShape(a: string) returns (j: nat)
    requires IsAfterHost(a)
    ensures j <= |a|
    ensures 0 < j ==> j > 1 && a[0] == ':' && forall k :: 0 < k < j ==> IsAsciiDigit(a[k])
    ensures j < |a| ==> (a[j] == '/' || a[j] == '?') && forall k :: j < k < |a| ==> !IsPySpace(a[k])
  {
    j :| 0 <= j <= |a| && IsPort(a[..j]) && IsTail(a[j..]);
    if 0 < j {
      forall k | 0 < k < j ensures IsAsciiDigit(a[k]) {
        assert a[k] == a[..j][1..][k - 1];
      }
    }
    if j < |a| {
      forall k | j < k < |a| ensures !IsPySpace(a[k]) {
        assert a[k] == a[j..][k - j];
      }
    }
  }

  /** A host character is none of the delimiters around a host and no white space. */
  lemma HostCharIsPlain(c: char)
    requires IsHostChar(c)
    ensures !IsPySpace(c) && c != ':' && c != '/' && c != '?' && c != '[' && c != ']'
  {
  }

  /** The host and port of a matching URL: host characters and colons up to `j`, then
      nothing, or a slash or question mark followed by no white space. */
  lemma AuthorityPrefix(r: string) returns (j: nat)
    requires IsAuthorityAndTail(r)
    ensures 0 < j <= |r|
    ensures forall k :: 0 <= k < j ==> IsHostChar(r[k]) || r[k] == ':'
    ensures j < |r| ==> (r[j] == '/' || r[j] == '?') && forall k :: j < k < |r| ==> !IsPySpace(r[k])
  {
    var i;
    i, j := AuthorityShape(r);
    forall k | i < k < j ensures IsHostChar(r[k]) {
      assert IsAsciiDigit(r[k]);
    }
  }

  /** The host ends at the first character that is not a host character, and what
      follows it must be a path, a query or a port number. */
  lemma AuthorityStopsAtDelimiter(r: string, k: nat)
    requires k < |r| && !IsHostChar(r[k])
    requires forall m :: 0 <= m < k ==> IsHostChar(r[m])
    ensures IsAuthorityAndTail(r) ==>
      r[k] == '/' || r[k] == '?' || (r[k] == ':' && k + 1 < |r| && IsAsciiDigit(r[k + 1]))
  {
    if IsAuthorityAndTail(r) {
      var i, j := AuthorityShape(r);
      assert k >= i;
      if k > i {
        HostCharIsPlain(r[i]);
      }
    }
  }

  /** The host is never empty. */
  lemma AuthorityNotEmpty(r: string)
    ensures IsAuthorityAndTail(r) ==> |r| > 0
  {
    if IsAuthorityAndTail(r) {
      var i, j := AuthorityShape(r);
    }
  }

  predicate NoSpace(s: string) {
    forall i :: 0 <= i < |s| ==> !IsPySpace(s[i])
  }

  lemma SchemeNoSpace(s: string)
    requires IsScheme(s)
    ensures NoSpace(s)
  {
    assert s[4..][0] == ':' || s[5..][0] == ':';
    if |s| == 8 {
      assert s[5] == s[5..][0] && s[6] == s[5..][1] && s[7] == s[5..][2];
    } else {
      assert s[4] == s[4..][0] && s[5] == s[4..][1] && s[6] == s[4..][2];
    }
  }

  lemma AuthorityNoSpace(r: string)
    requires IsAuthorityAndTail(r)
    ensures NoSpace(r)
  {
    var j := AuthorityPrefix(r);
    forall k | 0 <= k < j ensures !IsPySpace(r[k]) {
      if r[k] != ':' {
        HostCharIsPlain(r[k]);
      }
    }
  }

  lemma WholeUrlNoSpace(u: string)
    requires IsWholeUrl(u)
    ensures NoSpace(u)
  {
    var s :| 0 <= s <= |u| && IsScheme(u[..s]) && IsAuthorityAndTail(u[s..]);
    SchemeNoSpace(u[..s]);
    AuthorityNoSpace(u[s..]);
    NoSpaceSplit(u, s);
  }

  lemma NoSpaceSplit(u: string, s: nat)
    requires s <= |u| && NoSpace(u[..s]) && NoSpace(u[s..])
    ensures NoSpace(u)
  {
    forall k | 0 <= k < |u| ensures !IsPySpace(u[k]) {
      if k < s {
        assert u[k] == u[..s][k];
      } else {
        assert u[k] == u[s..][k - s];
      }
    }
  }

  /** A URL that passes validation contains no white space, except possibly one
      final newline. */
  lemma ValidatedUrlHasNoSpace(url: string)
    requires ValidateUrl(url).Success?
    ensures var r := ValidateUrl(url).value;
      forall i :: 0 <= i < |r| ==> !IsPySpace(r[i]) || (i == |r| - 1 && r[i] == '\n')
  {
    var r := ValidateUrl(url).value;
    if IsWholeUrl(r) {
      WholeUrlNoSpace(r);
    } else {
      var r' := r[..|r| - 1];
      WholeUrlNoSpace(r');
      forall i | 0 <= i < |r| - 1 ensures !IsPySpace(r[i]) {
        assert r[i] == r'[i];
      }
    }
  }

  /** Validating a validated URL changes nothing. */
  lemma ValidateUrlIdempotent(url: string)
    requires ValidateUrl(url).Success?
    ensures ValidateUrl(ValidateUrl(url).value) == ValidateUrl(url)
  {
  }

  // ---------------------------------------------------------------------------
  // Building and refuting matches
  // ---------------------------------------------------------------------------

  lemma LabelDot(l: string)
    requires IsLabel(l)
    ensures IsLabels(l + ".")
  {
    assert (l + ".")[..|l|] == l;
  }

  lemma DomainOf(labels: string, tld: string)
    requires IsLabels(labels) && IsTld(tld)
    ensures IsDomain(labels + tld)
  {
    var h := labels + tld;
    assert h[..|labels|] == labels && h[|labels|..] == tld;
  }

  lemma AfterHostOf(port: string, tail: string)
    requires IsPort(port) && IsTail(tail)
    ensures IsAfterHost(port + tail)
  {
    var a := port + tail;
    assert a[..|port|] == port && a[|port|..] == tail;
  }

  lemma AuthorityOf(host: string, a: string)
    requires IsHost(host) && IsAfterHost(a)
    ensures IsAuthorityAndTail(host + a)
  {
    var r := host + a;
    assert r[..|host|] == host && r[|host|..] == a;
  }

  lemma WholeOf(scheme: string, r: string)
    requires IsScheme(scheme) && IsAuthorityAndTail(r)
    ensures IsWholeUrl(scheme + r)
  {
    var u := scheme + r;
    assert u[..|scheme|] == scheme && u[|scheme|..] == r;
  }

  /** A scheme, a host, a port and a tail make a whole URL. */
  lemma WholeUrlOf(scheme: string, host: string, port: string, tail: string)
    requires IsScheme(scheme) && IsHost(host) && IsPort(port) && IsTail(tail)
    ensures IsWholeUrl(scheme + (host + (port + tail)))
  {
    AfterHostOf(port, tail);
    AuthorityOf(host, port + tail);
    WholeOf(scheme, host + (port + tail));
  }

  /** A URL without a scheme whose text cannot follow a scheme is rejected. */
  lemma RejectedWithoutScheme(url: string)
    requires !StartsWith(url, "http://") && !StartsWith(url, "https://")
    requires !IsAuthorityAndTail(url)
    requires url == [] || url[|url| - 1] != '\n'
    ensures ValidateUrl(url) == Failure(1)
  {
    PrefixedMatch(url);
  }

  /** An empty argument is rejected. */
  lemma EmptyUrlRejected()
    ensures ValidateUrl("") == Failure(1)
  {
    AuthorityNotEmpty("");
    RejectedWithoutScheme("");
  }

  /** A URL without a scheme is accepted, with `https://` in front, when its text
      can follow a scheme. */
  lemma AcceptedWithoutScheme(url: string)
    requires !StartsWith(url, "http://") && !StartsWith(url, "https://")
    requires IsAuthorityAndTail(url)
    ensures ValidateUrl(url) == Success("https://" + url)
  {
    WholeOf("https://", url);
  }

  /** One label, a dot and a top-level domain make a host. */
  lemma LabelTldIsHost(l: string, tld: string)
    requires IsLabel(l) && IsTld(tld)
    ensures IsHost(l + "." + tld)
  {
    LabelDot(l);
    DomainOf(l + ".", tld);
  }

  /** A host with nothing after it can follow a scheme. */
  lemma HostIsAuthority(h: string)
    requires IsHost(h)
    ensures IsAuthorityAndTail(h)
  {
    AfterHostOf("", "");
    assert h + ("" + "") == h;
    AuthorityOf(h, "" + "");
  }

  /** A text whose first character differs from the prefix's does not start with it. */
  lemma FirstCharDiffers(s: string, p: string)
    requires s != [] && p != [] && s[0] != p[0]
    ensures !StartsWith(s, p)
  {
    if |p| <= |s| {
      assert s[..|p|][0] == s[0];
    }
  }

  /** A label, a dot and a top-level domain, with nothing after them, can follow a
      scheme. */
  lemma DomainIsAuthority(h: string, l: string, tld: string)
    requires IsLabel(l) && IsTld(tld) && h == l + "." + tld
    ensures IsAuthorityAndTail(h)
  {
    LabelTldIsHost(l, tld);
    HostIsAuthority(h);
  }

  /** A bare domain gets the https scheme. */
  lemma BareDomainAccepted()
    ensures ValidateUrl("example.com") == Success("https://" + "example.com")
  {
    var u := "example.com";
    FirstCharDiffers(u, "http://");
    FirstCharDiffers(u, "https://");
    assert IsLabel("example") && IsTld("com");
    DomainIsAuthority(u, "example", "com");
    AcceptedWithoutScheme(u);
  }

  lemma LocalhostPortParts()
    ensures IsScheme("http://") && IsHost("localhost") && IsPort(":8080") && IsTail("/login")
  {
    assert ":8080"[1..] == "8080";
  }

  /** localhost with a port and a path is accepted as given. */
  lemma LocalhostWithPortAccepted()
    ensures var u := "http://" + ("localhost" + (":8080" + "/login"));
      ValidateUrl(u) == Success(u)
  {
    var rest := "localhost" + (":8080" + "/login");
    PrefixStarts("http://", rest);
    LocalhostPortParts();
    WholeUrlOf("http://", "localhost", ":8080", "/login");
  }

  lemma PrefixStarts(p: string, s: string)
    ensures StartsWith(p + s, p)
  {
    assert (p + s)[..|p|] == p;
  }

  /** An upper-case scheme is not recognised by the case-sensitive prefix test, so a
      second scheme is put in front and the result no longer matches. */
  lemma UpperCaseSchemeRejected()
    ensures ValidateUrl("HTTPS://EXAMPLE.COM") == Failure(1)
  {
    var url := "HTTPS://EXAMPLE.COM";
    FirstCharDiffers(url, "http://");
    FirstCharDiffers(url, "https://");
    AuthorityStopsAtDelimiter(url, 5);
    RejectedWithoutScheme(url);
  }

  // ---------------------------------------------------------------------------
  // The scheme test, case-insensitively
  // ---------------------------------------------------------------------------

  /** `s` starts with the lower-case `p`, ignoring the case of ASCII letters. */
  predicate StartsWithAnyCase(s: string, p: string) {
    |p| <= |s| && forall i :: 0 <= i < |p| ==> LowerChar(s[i]) == p[i]
  }

  /** The scheme is recognised whatever its case. */
  function WithSchemeAnyCase(url: string): (r: string)
    ensures StartsWithAnyCase(url, "http://") || StartsWithAnyCase(url, "https://") ==> r == url
    ensures !(StartsWithAnyCase(url, "http://") || StartsWithAnyCase(url, "https://")) ==> r == "https://" + url
  {
    if StartsWithAnyCase(url, "http://") || StartsWithAnyCase(url, "https://") then url else "https://" + url
  }

  /** validate_url with the scheme test made case-insensitive like the pattern. */
  function ValidateUrlAnyCase(url: string): (r: Result<string, int>)
    ensures r.Success? <==> UrlMatches(WithSchemeAnyCase(url))
    ensures r.Success? ==> r.value == WithSchemeAnyCase(url)
    ensures r.Failure? ==> r.error == 1
  {
    var u := WithSchemeAnyCase(url);
    if UrlMatches(u) then Success(u) else Failure(1)
  }

  /** A host followed by a colon and a slash cannot follow a scheme. */
  lemma ColonSlashRejects(r: string, k: nat)
    requires k + 1 < |r| && r[k] == ':' && r[k + 1] == '/'
    requires forall m :: 0 <= m < k ==> IsHostChar(r[m])
    ensures !IsAuthorityAndTail(r)
  {
    AuthorityStopsAtDelimiter(r, k);
  }

  /** In a URL that starts with `https://`, only the full eight characters can be the
      scheme. */
  lemma HttpsSchemeLength(u: string)
    requires StartsWith(u, "https://")
    ensures forall s :: 0 <= s <= |u| && IsScheme(u[..s]) ==> s == 8
  {
    forall s | 0 <= s <= |u| && IsScheme(u[..s]) ensures s == 8 {
      assert u[..s][4] == u[4] == u[..8][4];
    }
  }

  /** What follows a put-in-front `https://` must match on its own. */
  lemma PrefixedMatch(url: string)
    ensures UrlMatches("https://" + url) ==>
      IsAuthorityAndTail(url) || (|url| > 0 && url[|url| - 1] == '\n' && IsAuthorityAndTail(url[..|url| - 1]))
  {
    var u := "https://" + url;
    assert u[..8] == "https://" && u[8..] == url;
    HttpsSchemeLength(u);
    if |url| > 0 {
      var u' := u[..|u| - 1];
      assert u'[..8] == "https://" && u'[8..] == url[..|url| - 1];
      HttpsSchemeLength(u');
    }
  }

  /** Every URL the source accepts is accepted unchanged by the correction. */
  lemma AnyCaseExtends(url: string)
    ensures ValidateUrl(url).Success? ==> ValidateUrlAnyCase(url) == ValidateUrl(url)
  {
    if StartsWith(url, "http://") || StartsWith(url, "https://") {
      assert StartsWithAnyCase(url, "http://") || StartsWithAnyCase(url, "https://") by {
        if StartsWith(url, "http://") {
          forall i | 0 <= i < 7 ensures LowerChar(url[i]) == "http://"[i] {
            assert url[i] == url[..7][i];
          }
        } else {
          forall i | 0 <= i < 8 ensures LowerChar(url[i]) == "https://"[i] {
            assert url[i] == url[..8][i];
          }
        }
      }
    } else if StartsWithAnyCase(url, "http://") || StartsWithAnyCase(url, "https://") {
      var k := if StartsWithAnyCase(url, "http://") then 4 else 5;
      assert url[k] == ':' && url[k + 1] == '/';
      ColonSlashRejects(url, k);
      ColonSlashRejects(url[..|url| - 1], k);
      PrefixedMatch(url);
    }
  }

  /** `https://` in any case is the scheme of the pattern. */
  lemma AnyCaseHttpsIsScheme(s: string)
    requires StartsWithAnyCase(s, "https://") && |s| == 8
    ensures IsScheme(s)
  {
    var h := "https://";
    assert LowerChar(s[0]) == h[0] && LowerChar(s[1]) == h[1] && LowerChar(s[2]) == h[2];
    assert LowerChar(s[3]) == h[3] && LowerChar(s[4]) == h[4];
    assert s[5..] == "://" by {
      assert LowerChar(s[5]) == h[5] && LowerChar(s[6]) == h[6] && LowerChar(s[7]) == h[7];
    }
  }

  /** With the correction, a URL whose scheme is `https://` in any case is kept as
      given when the rest can follow a scheme. */
  lemma AnyCaseKeepsScheme(u: string)
    requires StartsWithAnyCase(u, "https://") && IsAuthorityAndTail(u[8..])
    ensures ValidateUrlAnyCase(u) == Success(u)
  {
    AnyCaseHttpsIsScheme(u[..8]);
    WholeOf(u[..8], u[8..]);
    assert u[..8] + u[8..] == u;
  }

  /** With the correction, an upper-case scheme is accepted as given. */
  lemma UpperCaseSchemeAccepted()
    ensures ValidateUrlAnyCase("HTTPS://EXAMPLE.COM") == Success("HTTPS://EXAMPLE.COM")
  {
    var u := "HTTPS://EXAMPLE.COM";
    assert u[8..] == "EXAMPLE.COM";
    assert StartsWithAnyCase(u, "https://");
    assert IsLabel("EXAMPLE") && IsTld("COM");
    DomainIsAuthority(u[8..], "EXAMPLE", "COM");
    AnyCaseKeepsScheme(u);
  }

  // ---------------------------------------------------------------------------
  // urlparse, as generate_testcase_name uses it
  // ---------------------------------------------------------------------------

  /** The leading characters urlsplit removes: C0 controls and space. */
  function LStripControls(s: string): (r: string)
    ensures |r| <= |s| && r == s[|s| - |r|..]
    ensures r != [] ==> r[0] > ' '
    decreases |s|
  {
    if s != [] && s[0] <= ' ' then LStripControls(s[1..]) else s
  }

  predicate IsUnsafe(c: char) {
    c == '\t' || c == '\r' || c == '\n'
  }

  /** Tab, carriage return and newline removed wherever they occur. */
  function RemoveUnsafe(s: string): (r: string)
    ensures forall i :: 0 <= i < |r| ==> !IsUnsafe(r[i])
    ensures (forall i :: 0 <= i < |s| ==> !IsUnsafe(s[i])) ==> r == s
    decreases |s|
  {
    if s == [] then []
    else
      var rest := RemoveUnsafe(s[1..]);
      assert (forall i :: 0 <= i < |s| ==> !IsUnsafe(s[i])) ==> [s[0]] + s[1..] == s;
      if IsUnsafe(s[0]) then rest else [s[0]] + rest
  }

  predicate IsAsciiLetter(c: char) {
    ('a' <= c <= 'z') || ('A' <= c <= 'Z')
  }

  predicate IsSchemeChar(c: char) {
    IsAsciiAlnum(c) || c == '+' || c == '-' || c == '.'
  }

  /** The scheme urlsplit recognises (an ASCII letter, then scheme characters, up to
      the first colon), lower-cased, and the text after the colon; or no scheme. */
  function SplitScheme(u: string): (r: (string, string))
    ensures r.0 != "" ==> |r.0| < |u| && u[|r.0|] == ':' && r.1 == u[|r.0| + 1..] && ':' !in u[..|r.0|]
    ensures r.0 == "" ==> r.1 == u
  {
    var i := Find(u, ':');
    if i > 0 && IsAsciiLetter(u[0]) && forall k :: 0 <= k < i ==> IsSchemeChar(u[k]) then (ToLower(u[..i]), u[i + 1..])
    else ("", u)
  }

  predicate IsNetlocEnd(c: char) {
    c == '/' || c == '?' || c == '#'
  }

  /** Where the network location ends: the first `/`, `?` or `#`, else the end. */
  function NetlocLength(s: string): (r: nat)
    ensures r <= |s|
    ensures forall k :: 0 <= k < r ==> !IsNetlocEnd(s[k])
    ensures r < |s| ==> IsNetlocEnd(s[r])
    decreases |s|
  {
    if s == [] || IsNetlocEnd(s[0]) then 0 else 1 + NetlocLength(s[1..])
  }

  /** Python `s.split(c, 1)`, with an empty second part when `c` is absent. */
  function SplitOnce(s: string, c: char): (r: (string, string))
    ensures c !in s ==> r == (s, "")
    ensures c in s ==> c !in r.0 && s == r.0 + [c] + r.1
  {
    var i := Find(s, c);
    if i < 0 then (s, "")
    else
      assert s == s[..i] + [c] + s[i + 1..];
      (s[..i], s[i + 1..])
  }

  /** The last index of `c`, or -1. */
  function RFind(s: string, c: char): (r: int)
    ensures -1 <= r < |s|
    ensures r == -1 <==> c !in s
    ensures r >= 0 ==> s[r] == c && c !in s[r + 1..]
    decreases |s|
  {
    if s == [] then -1
    else if s[|s| - 1] == c then |s| - 1
    else
      var k := RFind(s[..|s| - 1], c);
      assert k >= 0 ==> s[k + 1..] == s[..|s| - 1][k + 1..] + [s[|s| - 1]];
      k
  }

  /** The schemes whose paths may carry `;parameters`. */
  const UsesParams: set<string> :=
    {"", "ftp", "hdl", "prospero", "http", "imap", "https", "shttp", "rtsp", "rtspu", "sip", "sips", "mms", "sftp", "tel"}

  /** The parameters start at the first `;` of the last path segment. */
  function SplitParams(path: string): (r: (string, string))
    requires ';' in path
    ensures '/' !in r.1
  {
    var j := RFind(path, '/');
    var i := if j >= 0 then (var k := Find(path[j..], ';'); if k < 0 then -1 else j + k) else Find(path, ';');
    if i < 0 then (path, "")
    else
      assert j >= 0 ==> path[i + 1..] == path[j + 1..][i - j..];
      (path[..i], path[i + 1..])
  }

  datatype UrlParts = UrlParts(scheme: string, netloc: string, path: string, params: string, query: string, fragment: string)

  /** The network location after a leading `//`, and the text after it. */
  function SplitNetloc(rest: string): (r: (string, string))
    ensures forall k :: 0 <= k < |r.0| ==> !IsNetlocEnd(r.0[k])
    ensures StartsWith(rest, "//") ==> rest == "//" + r.0 + r.1 && (r.1 == "" || IsNetlocEnd(r.1[0]))
    ensures !StartsWith(rest, "//") ==> r == ("", rest)
  {
    if |rest| >= 2 && rest[..2] == "//" then
      var d := NetlocLength(rest[2..]);
      assert rest == "//" + rest[2..][..d] + rest[2..][d..];
      (rest[2..][..d], rest[2..][d..])
    else ("", rest)
  }

  /** urlparse: the scheme, the network location after `//` up to the first `/`,
      `?` or `#`, then the fragment, the query and the parameters split off the
      rest.  An unmatched bracket in the network location is a ValueError. */
  function UrlParse(url: string): (r: Result<UrlParts, string>)
    ensures r.Failure? ==> r.error == "ValueError"
    ensures r.Success? ==> forall k :: 0 <= k < |r.value.netloc| ==> !IsNetlocEnd(r.value.netloc[k])
    ensures r.Success? ==> ('[' in r.value.netloc) == (']' in r.value.netloc)
  {
    var u := RemoveUnsafe(LStripControls(url));
    var (scheme, rest) := SplitScheme(u);
    var (netloc, after) := SplitNetloc(rest);
    if ('[' in netloc) != (']' in netloc) then Failure("ValueError")
    else
      var (beforeFragment, fragment) := SplitOnce(after, '#');
      var (path0, query) := SplitOnce(beforeFragment, '?');
      var (path, params) := if scheme in UsesParams && ';' in path0 then SplitParams(path0) else (path0, "");
      Success(UrlParts(scheme, netloc, path, params, query, fragment))
  }

  /** The name from a network location and a path: `www.` removed from the one,
      slashes stripped from the ends of the other and turned into underscores. */
  function NameOf(netloc: string, path: string): (r: string)
    ensures '/' !in netloc ==> '/' !in r
  {
    var domain := ReplaceAll(netloc, "www.", "");
    var p := ReplaceAll(Strip(path, '/'), "/", "_");
    ReplaceCharRemoves(Strip(path, '/'), '/', '_');
    assert '/' !in netloc ==> '/' !in domain by {
      if '/' !in netloc { ReplaceAllKeepsOut(netloc, "www.", "", '/'); }
    }
    if p != "" then domain + "_" + p else domain
  }

  /** generate_testcase_name */
  function TestcaseName(url: string): (r: Result<string, string>)
    ensures r.Failure? <==> UrlParse(url).Failure?
    ensures r.Success? ==> r.value == NameOf(UrlParse(url).value.netloc, UrlParse(url).value.path)
  {
    match UrlParse(url)
    case Failure(e) => Failure(e)
    case Success(p) => Success(NameOf(p.netloc, p.path))
  }

  /** A generated name never contains a slash, so it names a file and not a
      directory. */
  lemma NameHasNoSlash(url: string)
    requires TestcaseName(url).Success?
    ensures '/' !in TestcaseName(url).value
  {
  }

  // ---------------------------------------------------------------------------
  // Validated URLs always have a name
  // ---------------------------------------------------------------------------

  lemma {:induction false} RemoveUnsafeSnoc(v: string, c: char)
    ensures RemoveUnsafe(v + [c]) == RemoveUnsafe(v) + (if IsUnsafe(c) then [] else [c])
    decreases |v|
  {
    if v != [] {
      assert (v + [c])[1..] == v[1..] + [c];
      RemoveUnsafeSnoc(v[1..], c);
    } else {
      assert [c][1..] == [];
    }
  }

  /** What urlparse sees of a URL the pattern accepts: the URL itself, or the URL
      without its final newline, which is a whole URL without white space. */
  lemma ParsedText(u: string) returns (v: string)
    requires UrlMatches(u) && u != [] && u[0] > ' '
    ensures RemoveUnsafe(LStripControls(u)) == v
    ensures IsWholeUrl(v) && NoSpace(v)
    ensures v == u || (u == v + "\n")
  {
    if IsWholeUrl(u) {
      v := u;
      WholeUrlNoSpace(v);
    } else {
      v := u[..|u| - 1];
      WholeUrlNoSpace(v);
      assert u == v + "\n";
      RemoveUnsafeSnoc(v, '\n');
    }
  }

  lemma {:induction false} FindIs(s: string, c: char, k: nat)
    requires k < |s| && s[k] == c
    requires forall m :: 0 <= m < k ==> s[m] != c
    ensures Find(s, c) == k
    decreases k
  {
    if k > 0 {
      FindIs(s[1..], c, k - 1);
    }
  }

  /** The scheme a URL starts with, as urlsplit splits it off. */
  lemma SplitSchemeOf(v: string, n: nat)
    requires n == 7 || n == 8
    requires |v| >= n
    requires forall i :: 0 <= i < n ==> LowerChar(v[i]) == (if n == 8 then "https://" else "http://")[i]
    ensures SplitScheme(v) == (if n == 8 then "https" else "http", "//" + v[n..])
  {
    var lit := if n == 8 then "https://" else "http://";
    var c := n - 3;
    assert v[c] == ':' by { assert LowerChar(v[c]) == lit[c]; }
    forall k | 0 <= k < c ensures v[k] != ':' && IsSchemeChar(v[k]) && LowerChar(v[k]) == lit[k] {
      assert LowerChar(v[k]) == lit[k];
    }
    FindIs(v, ':', c);
    assert IsAsciiLetter(v[0]);
    assert forall k :: 0 <= k < c ==> IsSchemeChar(v[k]);
    var low := ToLower(v[..c]);
    assert |low| == c;
    forall k | 0 <= k < c ensures low[k] == lit[..c][k] {
      assert v[..c][k] == v[k];
    }
    assert low == lit[..c];
    assert lit[..c] == (if n == 8 then "https" else "http");
    assert v[c + 1..] == "//" + v[n..];
  }

  lemma {:induction false} NetlocLengthIs(s: string, j: nat)
    requires j <= |s|
    requires forall k :: 0 <= k < j ==> !IsNetlocEnd(s[k])
    requires j < |s| ==> IsNetlocEnd(s[j])
    ensures NetlocLength(s) == j
    decreases j
  {
    if j > 0 {
      NetlocLengthIs(s[1..], j - 1);
    }
  }

  /** The network location of `//` followed by `r` is `r` up to its first `/`, `?` or
      `#`. */
  lemma SplitNetlocOf(r: string, j: nat)
    requires j <= |r|
    requires forall k :: 0 <= k < j ==> !IsNetlocEnd(r[k])
    requires j < |r| ==> IsNetlocEnd(r[j])
    ensures SplitNetloc("//" + r).0 == r[..j]
  {
    var rest := "//" + r;
    assert rest[..2] == "//" && rest[2..] == r;
    NetlocLengthIs(r, j);
  }

  /** For the text after a scheme, the network location runs to the first slash or
      question mark: it is the host and the port. */
  lemma NetlocOfAuthority(r: string)
    requires IsAuthorityAndTail(r)
    ensures var n := SplitNetloc("//" + r).0;
      && n != []
      && (forall k :: 0 <= k < |n| ==> IsHostChar(n[k]) || n[k] == ':')
      && '[' !in n && ']' !in n
  {
    var j := AuthorityPrefix(r);
    SplitNetlocOf(r, j);
    var n := r[..j];
    forall k | 0 <= k < |n| ensures n[k] != '[' && n[k] != ']' {
      assert n[k] == r[k];
      if n[k] != ':' {
        HostCharIsPlain(n[k]);
      }
    }
  }

  /** The text after the scheme of a whole URL. */
  lemma SchemeOfWholeUrl(v: string, n: nat)
    requires n == 7 || n == 8
    requires |v| > 4 ==> LowerChar(v[4]) == (if n == 8 then 's' else ':')
    requires IsWholeUrl(v)
    ensures |v| > n && IsAuthorityAndTail(v[n..])
  {
    var s :| 0 <= s <= |v| && IsScheme(v[..s]) && IsAuthorityAndTail(v[s..]);
    SchemeLengthIs(v, s, n);
    AuthorityNotEmpty(v[s..]);
  }

  /** The scheme's length is told by its fifth character. */
  lemma SchemeLengthIs(v: string, s: nat, n: nat)
    requires n == 7 || n == 8
    requires 4 < |v| && LowerChar(v[4]) == (if n == 8 then 's' else ':')
    requires s <= |v| && IsScheme(v[..s])
    ensures s == n
  {
    assert v[..s][4] == v[4];
    if s == 7 {
      assert v[..s][4..][0] == v[4];
    }
  }

  /** urlparse of a URL whose scheme and network location are known. */
  lemma UrlParseOf(url: string, v: string, scheme: string, r: string)
    requires RemoveUnsafe(LStripControls(url)) == v
    requires SplitScheme(v) == (scheme, "//" + r)
    requires '[' !in SplitNetloc("//" + r).0 && ']' !in SplitNetloc("//" + r).0
    ensures UrlParse(url).Success?
    ensures UrlParse(url).value.scheme == scheme && UrlParse(url).value.netloc == SplitNetloc("//" + r).0
  {
  }

  lemma HttpsPrefixAnyCase(url: string)
    ensures StartsWithAnyCase("https://" + url, "https://")
  {
    var u := "https://" + url;
    forall i | 0 <= i < 8 ensures LowerChar(u[i]) == "https://"[i] {
      assert u[i] == "https://"[i];
    }
  }

  /** The default name can be generated for every URL that passes validation: its
      network location is the validated host and port. */
  lemma ValidatedUrlHasName(url: string)
    requires ValidateUrlAnyCase(url).Success?
    ensures var u := ValidateUrlAnyCase(url).value;
      && TestcaseName(u).Success?
      && var p := UrlParse(u).value;
      && (p.scheme == "http" || p.scheme == "https")
      && p.netloc != []
      && forall k :: 0 <= k < |p.netloc| ==> IsHostChar(p.netloc[k]) || p.netloc[k] == ':'
  {
    var u := ValidateUrlAnyCase(url).value;
    if u == "https://" + url {
      HttpsPrefixAnyCase(url);
    }
    if StartsWithAnyCase(u, "https://") {
      MatchingUrlHasName(u, 8);
    } else {
      MatchingUrlHasName(u, 7);
    }
  }

  /** The same for a matching URL whose first `n` characters are the scheme. */
  lemma MatchingUrlHasName(u: string, n: nat)
    requires UrlMatches(u)
    requires n == 7 || n == 8
    requires StartsWithAnyCase(u, if n == 8 then "https://" else "http://")
    ensures TestcaseName(u).Success?
    ensures var p := UrlParse(u).value;
      && (p.scheme == "http" || p.scheme == "https")
      && p.netloc != []
      && forall k :: 0 <= k < |p.netloc| ==> IsHostChar(p.netloc[k]) || p.netloc[k] == ':'
  {
    var v := MatchingUrlText(u, n);
    NetlocOfAuthority(v[n..]);
    UrlParseOf(u, v, if n == 8 then "https" else "http", v[n..]);
  }

  /** The text urlparse works on, for a matching URL whose first `n` characters are
      the scheme: the scheme is split off and the rest can follow a scheme. */
  lemma MatchingUrlText(u: string, n: nat) returns (v: string)
    requires UrlMatches(u)
    requires n == 7 || n == 8
    requires StartsWithAnyCase(u, if n == 8 then "https://" else "http://")
    ensures RemoveUnsafe(LStripControls(u)) == v
    ensures |v| > n && IsAuthorityAndTail(v[n..])
    ensures SplitScheme(v) == (if n == 8 then "https" else "http", "//" + v[n..])
  {
    FirstCharVisible(u, n);
    v := ParsedText(u);
    PrefixAgrees(u, v, n);
    SchemeOfWholeUrl(v, n);
    SplitSchemeOf(v, n);
  }

  lemma FirstCharVisible(u: string, n: nat)
    requires n == 7 || n == 8
    requires StartsWithAnyCase(u, if n == 8 then "https://" else "http://")
    ensures u != [] && u[0] > ' '
  {
    assert LowerChar(u[0]) == 'h';
  }

  /** The text urlparse works on keeps the scheme characters of the URL. */
  lemma PrefixAgrees(u: string, v: string, n: nat)
    requires n == 7 || n == 8
    requires StartsWithAnyCase(u, if n == 8 then "https://" else "http://")
    requires v == u || u == v + "\n"
    ensures |v| > 4 ==> LowerChar(v[4]) == (if n == 8 then 's' else ':')
    ensures |v| >= n ==> forall i :: 0 <= i < n ==> LowerChar(v[i]) == (if n == 8 then "https://" else "http://")[i]
  {
    var lit := if n == 8 then "https://" else "http://";
    if |v| > 4 {
      assert v[4] == u[4];
      assert lit[4] == (if n == 8 then 's' else ':');
    }
    if |v| >= n {
      forall i | 0 <= i < n ensures LowerChar(v[i]) == lit[i] {
        assert v[i] == u[i];
      }
    }
  }

  // ---------------------------------------------------------------------------
  // The record command's start
  // ---------------------------------------------------------------------------

  datatype Session = Session(url: string, name: string)

  /** The record command before the browser starts: the URL is validated and, when no
      name is given, the name is generated from the validated URL. */
  function SessionStart(url: string, name: Option<string>): (r: Result<Session, int>)
    ensures r.Success? <==> ValidateUrl(url).Success?
    ensures r.Failure? ==> r.error == 1
    ensures r.Success? ==> r.value.url == ValidateUrl(url).value
    ensures r.Success? && name.Some? ==> r.value.name == name.value
    ensures r.Success? && name.None? ==>
      TestcaseName(r.value.url) == Success(r.value.name) && '/' !in r.value.name
  {
    match ValidateUrl(url)
    case Failure(code) => Failure(code)
    case Success(u) =>
      if name.Some? then Success(Session(u, name.value))
      else
        AnyCaseExtends(url);
        ValidatedUrlHasName(url);
        NameHasNoSlash(u);
        Success(Session(u, TestcaseName(u).value))
  }
}
