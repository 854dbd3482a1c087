/** `is_valid_url` of the node plugins: a `urlparse` pre-check followed by
    an anchored regular expression

      ^(https?://)([a-zA-Z0-9-]+\.)+[a-zA-Z0-9]{1,6}(:\d+)?(/\S*)?$

    The expression is modelled by its structure: scheme prefix, host
    (the maximal run of host characters), optional port, optional path. */
module Url {

  import opened Base
  import opened Text

  predicate IsAsciiLetter(c: char)
  {
    'a' <= c <= 'z' || 'A' <= c <= 'Z'
  }

  /** `[a-zA-Z0-9]` */
  predicate IsAlnum(c: char)
  {
    IsAsciiLetter(c) || IsDigit(c)
  }

  /** `[a-zA-Z0-9-]`: a character of a non-final host label. */
  predicate IsLabelChar(c: char)
  {
    IsAlnum(c) || c == '-'
  }

  /** Any character the host part of the pattern can consume. */
  predicate IsHostChar(c: char)
  {
    IsLabelChar(c) || c == '.'
  }

  // ---------------------------------------------------------------------
  // The regular expression

  /** `([a-zA-Z0-9-]+\.)+[a-zA-Z0-9]{1,6}` on a whole host. */
  predicate HostMatches(h: string)
  {
    var labels := Split(h, '.');
    |labels| >= 2
    && (forall i :: 0 <= i < |labels| - 1 ==>
          labels[i] != [] && forall j :: 0 <= j < |labels[i]| ==> IsLabelChar(labels[i][j]))
    && var last := labels[|labels| - 1];
       1 <= |last| <= 6 && forall j :: 0 <= j < |last| ==> IsAlnum(last[j])
  }

  /** `(/\S*)?` on a whole string. */
  predicate PathBody(t: string)
  {
    t == [] || (t[0] == '/' && forall i :: 1 <= i < |t| ==> !IsSpace(t[i]))
  }

  /** `(/\S*)?$`: without MULTILINE, `$` matches at the end of the string and
      also just before a newline that ends it. */
  predicate PathMatches(t: string)
  {
    PathBody(t) || (t != [] && t[|t| - 1] == '\n' && PathBody(t[..|t| - 1]))
  }

  /** `(:\d+)?(/\S*)?$`, with ASCII digits. */
  predicate TailMatches(t: string)
  {
    PathMatches(t)
    || (t != [] && t[0] == ':'
        && var n := RunLen(t[1..], IsDigit);
           n >= 1 && PathMatches(t[1 + n..]))
  }

  /** What follows `http://` or `https://`, if the string starts with one. */
  function AfterScheme(url: string): (r: Option<string>)
    ensures r.Some? <==> StartsWith(url, "http://") || StartsWith(url, "https://")
  {
    if StartsWith(url, "https://") then Some(url[8..])
    else if StartsWith(url, "http://") then Some(url[7..])
    else None
  }

  /** `re.match` of the whole pattern. The host cannot stop before the end
      of the host-character run, since neither `:` nor `/` nor a final
      newline nor the end of the string would follow it. */
  predicate MatchesPattern(url: string)
  {
    match AfterScheme(url)
    case None => false
    case Some(rest) =>
      var n := RunLen(rest, IsHostChar);
      HostMatches(rest[..n]) && TailMatches(rest[n..])
  }

  // ---------------------------------------------------------------------
  // urlparse

  /** The scheme and network location `urlparse` reports, or `Raises` for
      its ValueError on an unbalanced `[` / `]` in the network location. */
  datatype Parsed = Raises | Parts(scheme: string, netloc: string)

  predicate IsSchemeChar(c: char)
  {
    IsAlnum(c) || c == '+' || c == '-' || c == '.'
  }

  predicate NotColon(c: char)
  {
    c != ':'
  }

  /** The scheme is what precedes the first `:` when it starts with a letter
      and consists of scheme characters; it is lower-cased. */
  function SplitScheme(url: string): (r: (string, string))
    ensures r.0 != "" ==> ':' in url
  {
    var i := RunLen(url, NotColon);
    if 0 < i < |url| && IsAsciiLetter(url[0]) && forall j :: 0 <= j < i ==> IsSchemeChar(url[j])
    then (Lower(url[..i]), url[i + 1..])
    else ("", url)
  }

  /** A character of a network location: anything but `/`, `?` and `#`. */
  predicate IsNetlocChar(c: char)
  {
    c != '/' && c != '?' && c != '#'
  }

  /** After a `//`, the network location runs up to the first `/`, `?` or `#`. */
  function UrlParse(url: string): (r: Parsed)
    ensures r.Raises? ==> '[' in url || ']' in url
  {
    var (scheme, rest) := SplitScheme(url);
    if StartsWith(rest, "//") then
      var netloc := rest[2..][..RunLen(rest[2..], IsNetlocChar)];
      if ('[' in netloc) != (']' in netloc) then Raises
      else Parts(scheme, netloc)
    else Parts(scheme, "")
  }

  /** `is_valid_url(url)` */
  predicate IsValidUrl(url: string)
  {
    match UrlParse(url)
    case Raises => false
    case Parts(scheme, netloc) => scheme != "" && netloc != "" && MatchesPattern(url)
  }

  // ---------------------------------------------------------------------
  // Properties

  /** A valid URL begins with `http://` or `https://`. */
  lemma ValidStartsWithHttp(url: string)
    requires IsValidUrl(url)
    ensures StartsWith(url, "http://") || StartsWith(url, "https://")
  {
  }

  /** Length of the `(:\d+)` part of a tail: zero when it has no port. */
  function PortLen(t: string): (d: nat)
    ensures d <= |t|
    ensures forall i :: 0 <= i < d ==> t[i] == ':' || IsDigit(t[i])
  {
    if t != [] && t[0] == ':' then
      var n := RunLen(t[1..], IsDigit);
      assert forall i :: 1 <= i < 1 + n ==> t[i] == t[1..][i - 1];
      1 + n
    else 0
  }

  /** A matching tail is a port part followed by a path part. */
  lemma TailShape(t: string)
    requires TailMatches(t)
    ensures PathMatches(t[PortLen(t)..])
  {
    if t != [] && t[0] == ':' {
      assert !PathMatches(t);
    }
  }

  /** The scheme `urlparse` finds in a URL starting with `http://` (k = 4)
      or `https://` (k = 5). */
  lemma HttpScheme(url: string, k: nat)
    requires (k == 4 && StartsWith(url, "http://")) || (k == 5 && StartsWith(url, "https://"))
    ensures SplitScheme(url).0 != "" && SplitScheme(url).1 == url[k + 1..]
  {
    assert url[..k + 3] == (if k == 4 then "http://" else "https://");
    assert forall i :: 0 <= i < k ==> url[i] == url[..k + 3][i];
    assert url[k] == url[..k + 3][k];
    RunLenAt(url, NotColon, k);
  }

  lemma HostNotEmpty(h: string)
    requires HostMatches(h)
    ensures h != []
  {
  }

  /** A character below U+0080. */
  predicate IsAscii(c: char)
  {
    (c as int) < 128
  }

  /** The network location of a pattern-conforming remainder is the host,
      the port and, when the URL ends in a newline after them, that newline:
      non-empty, ASCII and free of brackets. */
  lemma NetlocOfMatch(after: string)
    requires var n := RunLen(after, IsHostChar);
      HostMatches(after[..n]) && TailMatches(after[n..])
    ensures var m := RunLen(after, IsNetlocChar);
      m > 0 && '[' !in after[..m] && ']' !in after[..m]
      && forall i :: 0 <= i < m ==> IsAscii(after[i])
  {
    var n := RunLen(after, IsHostChar);
    HostNotEmpty(after[..n]);
    var tail := after[n..];
    TailShape(tail);
    var m := n + PortLen(tail);
    HostPortChars(after, n);
    assert after[m..] == tail[PortLen(tail)..];
    PathStart(after[m..]);
    NetlocRun(after, m);
  }

  /** Characters of a network location that keep it ASCII and bracket-free. */
  predicate PlainNetloc(s: string, k: nat)
    requires k <= |s|
  {
    forall i :: 0 <= i < k ==> IsNetlocChar(s[i]) && IsAscii(s[i]) && s[i] != '[' && s[i] != ']'
  }

  /** The network location of a string that starts with m plain characters
      followed by nothing, a lone newline or a `/`. */
  lemma NetlocRun(after: string, m: nat)
    requires 0 < m <= |after| && PlainNetloc(after, m)
    requires after[m..] == [] || after[m..] == "\n" || after[m..][0] == '/'
    ensures var k := RunLen(after, IsNetlocChar);
      k > 0 && '[' !in after[..k] && ']' !in after[..k]
      && forall i :: 0 <= i < k ==> IsAscii(after[i])
  {
    if after[m..] == [] || after[m..] == "\n" {
      assert PlainNetloc(after, |after|) by {
        forall i | m <= i < |after|
          ensures IsNetlocChar(after[i]) && IsAscii(after[i]) && after[i] != '[' && after[i] != ']'
        {
          assert after[i] == after[m..][i - m];
        }
      }
      RunLenAt(after, IsNetlocChar, |after|);
      NoBracket(after, |after|);
    } else {
      assert after[m] == after[m..][0];
      RunLenAt(after, IsNetlocChar, m);
      NoBracket(after, m);
    }
  }

  lemma NoBracket(s: string, k: nat)
    requires k <= |s| && PlainNetloc(s, k)
    ensures '[' !in s[..k] && ']' !in s[..k]
  {
    assert forall i :: 0 <= i < k ==> s[..k][i] == s[i];
  }

  /** The host run and the port are ASCII network-location characters, none
      of them a bracket. */
  lemma HostPortChars(after: string, n: nat)
    requires n <= |after| && forall i :: 0 <= i < n ==> IsHostChar(after[i])
    ensures forall i :: 0 <= i < n + PortLen(after[n..]) ==>
              IsNetlocChar(after[i]) && IsAscii(after[i]) && after[i] != '[' && after[i] != ']'
  {
    var tail := after[n..];
    forall i | n <= i < n + PortLen(tail)
      ensures IsNetlocChar(after[i]) && IsAscii(after[i]) && after[i] != '[' && after[i] != ']'
    {
      assert after[i] == tail[i - n];
    }
  }

  /** A path part is empty, a lone final newline, or starts with `/`. */
  lemma PathStart(p: string)
    requires PathMatches(p)
    ensures p == [] || p == "\n" || p[0] == '/'
  {
    if !PathBody(p) {
      var q := p[..|p| - 1];
      if q == [] {
        assert p == [p[0]];
      } else {
        assert p[0] == q[0];
      }
    }
  }

  /** Whatever the pattern accepts also passes the `urlparse` pre-check, so
      the pre-check never rejects on its own and nothing raises; the network
      location it finds is ASCII. */
  lemma PatternPassesUrlParse(url: string)
    requires MatchesPattern(url)
    ensures UrlParse(url).Parts? && UrlParse(url).scheme != "" && UrlParse(url).netloc != ""
    ensures UrlParse(url).Parts? ==> forall i :: 0 <= i < |UrlParse(url).netloc| ==> IsAscii(UrlParse(url).netloc[i])
  {
    var k := if StartsWith(url, "https://") then 5 else 4;
    HttpScheme(url, k);
    var rest := url[k + 1..];
    assert rest[..2] == url[k + 1..k + 3] == "//" by {
      assert url[..k + 3] == (if k == 4 then "http://" else "https://");
    }
    assert rest[2..] == url[k + 3..];
    NetlocOfMatch(url[k + 3..]);
  }

  /** The `urlparse` pre-check adds nothing: validity is the pattern alone. */
  lemma ValidIffPattern(url: string)
    ensures IsValidUrl(url) <==> MatchesPattern(url)
  {
    if MatchesPattern(url) {
      PatternPassesUrlParse(url);
    }
  }

  /** No whitespace in `s`, save possibly a newline that ends it. */
  predicate SpaceFreeToEnd(s: string)
  {
    forall i :: 0 <= i < |s| ==> !IsSpace(s[i]) || (i == |s| - 1 && s[i] == '\n')
  }

  lemma PathHasNoSpace(p: string)
    requires PathMatches(p)
    ensures SpaceFreeToEnd(p)
  {
    if !PathBody(p) {
      var q := p[..|p| - 1];
      assert forall i :: 0 <= i < |q| ==> p[i] == q[i];
    }
  }

  /** A matching tail holds no whitespace but a possible final newline. */
  lemma TailHasNoSpace(t: string)
    requires TailMatches(t)
    ensures SpaceFreeToEnd(t)
  {
    TailShape(t);
    var d := PortLen(t);
    PathHasNoSpace(t[d..]);
    forall i | 0 <= i < |t|
      ensures !IsSpace(t[i]) || (i == |t| - 1 && t[i] == '\n')
    {
      if i >= d {
        assert t[d..][i - d] == t[i];
      }
    }
  }

  /** What follows the scheme of a matching URL holds no whitespace but a
      possible final newline. */
  lemma RestHasNoSpace(rest: string)
    requires var n := RunLen(rest, IsHostChar);
      TailMatches(rest[n..])
    ensures SpaceFreeToEnd(rest)
  {
    var n := RunLen(rest, IsHostChar);
    TailHasNoSpace(rest[n..]);
    HostThenNoSpace(rest, n);
  }

  /** A run of host characters followed by a remainder free of whitespace. */
  lemma HostThenNoSpace(s: string, n: nat)
    requires n <= |s|
    requires forall i :: 0 <= i < n ==> IsHostChar(s[i])
    requires SpaceFreeToEnd(s[n..])
    ensures SpaceFreeToEnd(s)
  {
    forall i | 0 <= i < |s|
      ensures !IsSpace(s[i]) || (i == |s| - 1 && s[i] == '\n')
    {
      if i < n {
        HostCharNotSpace(s[i]);
      } else {
        assert s[n..][i - n] == s[i];
      }
    }
  }

  lemma HostCharNotSpace(c: char)
    requires IsHostChar(c)
    ensures !IsSpace(c)
  {
  }

  /** A URL the pattern accepts holds no whitespace before its last
      character, and that one is either no whitespace or a newline; so the
      removal of tabs and line breaks and the stripping of leading spaces
      that `urlparse` performs cannot change a verdict. */
  lemma ValidHasNoSpace(url: string)
    requires IsValidUrl(url)
    ensures url != []
    ensures forall i :: 0 <= i < |url| - 1 ==> !IsSpace(url[i])
    ensures !IsSpace(url[|url| - 1]) || url[|url| - 1] == '\n'
  {
    assert MatchesPattern(url);
    PatternHasNoSpace(url);
  }

  lemma PatternHasNoSpace(url: string)
    requires MatchesPattern(url)
    ensures |url| >= 7 && SpaceFreeToEnd(url)
  {
    var k := if StartsWith(url, "https://") then 8 else 7;
    assert url[..k] == (if k == 7 then "http://" else "https://");
    RestHasNoSpace(url[k..]);
    SchemeThenNoSpace(url, k);
  }

  /** `http://` or `https://` followed by a remainder free of whitespace. */
  lemma SchemeThenNoSpace(s: string, k: nat)
    requires k <= |s| && (s[..k] == "http://" || s[..k] == "https://")
    requires SpaceFreeToEnd(s[k..])
    ensures SpaceFreeToEnd(s)
  {
    forall i | 0 <= i < |s|
      ensures !IsSpace(s[i]) || (i == |s| - 1 && s[i] == '\n')
    {
      if i < k {
        assert s[i] == s[..k][i];
      } else {
        assert s[k..][i - k] == s[i];
      }
    }
  }

  /** Structure of a valid URL: for a scheme prefix, a run of host
      characters and a tail that does not continue the run, the URL is valid
      exactly when the host and the tail match their parts of the pattern. */
  lemma ValidUrlParts(scheme: string, host: string, tail: string)
    requires scheme == "http://" || scheme == "https://"
    requires forall i :: 0 <= i < |host| ==> IsHostChar(host[i])
    requires tail == [] || !IsHostChar(tail[0])
    ensures IsValidUrl(scheme + host + tail) <==> HostMatches(host) && TailMatches(tail)
  {
    ValidIffPattern(scheme + host + tail);
    PatternParts(scheme, host, tail);
  }

  lemma PatternParts(scheme: string, host: string, tail: string)
    requires scheme == "http://" || scheme == "https://"
    requires forall i :: 0 <= i < |host| ==> IsHostChar(host[i])
    requires tail == [] || !IsHostChar(tail[0])
    ensures MatchesPattern(scheme + host + tail) <==> HostMatches(host) && TailMatches(tail)
  {
    var rest := host + tail;
    assert scheme + host + tail == scheme + rest;
    assert AfterScheme(scheme + rest) == Some(rest) by {
      SchemeRest(scheme, rest);
    }
    RunLenAt(rest, IsHostChar, |host|);
    assert rest[..|host|] == host && rest[|host|..] == tail;
  }

  lemma SchemeRest(scheme: string, rest: string)
    requires scheme == "http://" || scheme == "https://"
    ensures AfterScheme(scheme + rest) == Some(rest)
  {
    var url := scheme + rest;
    assert url[..|scheme|] == scheme;
    assert url[|scheme|..] == rest;
    if scheme == "http://" {
      assert url[4] == ':';
      assert !StartsWith(url, "https://") by {
        if |url| >= 8 {
          assert url[..8][4] == url[4];
        }
      }
      assert AfterScheme(url) == Some(url[7..]);
    } else {
      assert AfterScheme(url) == Some(url[8..]);
    }
  }

  /** Without MULTILINE, `$` also matches before one final newline: a URL
      that does not already end in a newline keeps its verdict when one is
      appended, and is rejected when two are. */
  lemma FinalNewline(scheme: string, host: string, tail: string)
    requires scheme == "http://" || scheme == "https://"
    requires forall i :: 0 <= i < |host| ==> IsHostChar(host[i])
    requires tail == [] || !IsHostChar(tail[0])
    requires tail == [] || tail[|tail| - 1] != '\n'
    ensures IsValidUrl(scheme + host + tail + "\n") <==> IsValidUrl(scheme + host + tail)
    ensures !IsValidUrl(scheme + host + tail + "\n\n")
  {
    var url := scheme + host + tail;
    NewlineAppended(scheme, host, tail);
    SpaceBeforeEndRejected(url + "\n\n", |url|);
  }

  lemma NewlineAppended(scheme: string, host: string, tail: string)
    requires scheme == "http://" || scheme == "https://"
    requires forall i :: 0 <= i < |host| ==> IsHostChar(host[i])
    requires tail == [] || !IsHostChar(tail[0])
    requires tail == [] || tail[|tail| - 1] != '\n'
    ensures IsValidUrl(scheme + host + tail + "\n") <==> IsValidUrl(scheme + host + tail)
  {
    ValidUrlParts(scheme, host, tail);
    ValidUrlParts(scheme, host, tail + "\n");
    assert scheme + host + (tail + "\n") == scheme + host + tail + "\n";
    TailFinalNewline(tail);
  }

  /** Whitespace anywhere but at the very end makes a URL invalid. */
  lemma SpaceBeforeEndRejected(url: string, i: nat)
    requires i < |url| - 1 && IsSpace(url[i])
    ensures !IsValidUrl(url)
  {
    if IsValidUrl(url) {
      ValidHasNoSpace(url);
    }
  }

  lemma TailFinalNewline(t: string)
    requires t == [] || t[|t| - 1] != '\n'
    ensures TailMatches(t + "\n") <==> TailMatches(t)
  {
    var t' := t + "\n";
    PathFinalNewline(t);
    if t != [] && t[0] == ':' {
      var s := t[1..];
      assert t'[1..] == s + "\n";
      var n := RunLen(s, IsDigit);
      assert forall i :: 0 <= i < n ==> (s + "\n")[i] == s[i];
      RunLenAt(s + "\n", IsDigit, n);
      assert t'[1 + n..] == t[1 + n..] + "\n";
      PathFinalNewline(t[1 + n..]);
    } else {
      assert t'[0] == (if t == [] then '\n' else t[0]);
    }
  }

  lemma PathFinalNewline(p: string)
    requires p == [] || p[|p| - 1] != '\n'
    ensures PathMatches(p + "\n") <==> PathMatches(p)
  {
    var p' := p + "\n";
    assert p'[..|p|] == p;
    assert !PathBody(p') by {
      if p'[0] == '/' {
        assert p'[|p|] == '\n';
      }
    }
  }

  /** A host without a dot, such as `localhost`, is rejected. */
  lemma DotlessHostRejected(h: string)
    requires '.' !in h
    ensures !HostMatches(h)
  {
    SplitNoSeparator(h, '.');
  }

  /** A final label longer than six characters is rejected. */
  lemma LongFinalLabelRejected(front: string, last: string)
    requires '.' !in last && |last| > 6
    ensures !HostMatches(front + "." + last)
  {
    SplitConcat(front, last, '.');
    SplitNoSeparator(last, '.');
    assert front + "." + last == front + ['.'] + last;
  }

  /** A host of two dot-separated labels matches when the first is a
      non-empty run of label characters and the second 1 to 6 alphanumerics. */
  lemma TwoLabelHost(a: string, b: string)
    requires a != [] && forall i :: 0 <= i < |a| ==> IsLabelChar(a[i])
    requires 1 <= |b| <= 6 && forall i :: 0 <= i < |b| ==> IsAlnum(b[i])
    ensures HostMatches(a + "." + b)
  {
    assert '.' !in a && '.' !in b by {
      assert forall i :: 0 <= i < |a| ==> a[i] != '.';
      assert forall i :: 0 <= i < |b| ==> b[i] != '.';
    }
    SplitConcat(a, b, '.');
    SplitNoSeparator(a, '.');
    SplitNoSeparator(b, '.');
    assert a + "." + b == a + ['.'] + b;
  }
}
