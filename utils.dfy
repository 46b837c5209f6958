/**
  The string helpers: site-URL assembly, the token-count estimate and initials extraction.
  Environment variables are parameters (`None` when unset).
 */
module Utils {
  import opened Wrappers
  import opened Strings

  // ---------------------------------------------------------------------------------------
  // getURL

  const LocalBase: string := "http://localhost:3000/"

  /** `v && v.trim() !== ''`: set, non-empty and not all white space. */
  predicate Usable(v: Option<string>)
  {
    v.Some? && v.value != "" && Trim(v.value) != ""
  }

  /** The base before normalisation: the site URL, else the deployment URL, else localhost.
      The chosen value is used as it is, untrimmed. */
  function ChooseBase(siteUrl: Option<string>, vercelUrl: Option<string>): (base: string)
    ensures Usable(siteUrl) ==> base == siteUrl.value
    ensures !Usable(siteUrl) && Usable(vercelUrl) ==> base == vercelUrl.value
    ensures !Usable(siteUrl) && !Usable(vercelUrl) ==> base == LocalBase
  {
    if Usable(siteUrl) then siteUrl.value
    else if Usable(vercelUrl) then vercelUrl.value
    else LocalBase
  }

  /** `s.replace(/\/+$/, '')` */
  function StripTrailingSlashes(s: string): (r: string)
    ensures |r| <= |s| && r == s[..|r|]
    ensures r == [] || r[|r| - 1] != '/'
    ensures forall i :: |r| <= i < |s| ==> s[i] == '/'
  {
    if |s| > 0 && s[|s| - 1] == '/' then StripTrailingSlashes(s[..|s| - 1]) else s
  }

  /** `s.replace(/^\/+/, '')` */
  function StripLeadingSlashes(s: string): (r: string)
    ensures |r| <= |s| && r == s[|s| - |r|..]
    ensures r == [] || r[0] != '/'
    ensures forall i :: 0 <= i < |s| - |r| ==> s[i] == '/'
  {
    if |s| > 0 && s[0] == '/' then StripLeadingSlashes(s[1..]) else s
  }

  /** The normalised base: no trailing slashes, and `https://` in front unless "http"
      occurs anywhere in it. */
  function Base(siteUrl: Option<string>, vercelUrl: Option<string>): string
  {
    var url := StripTrailingSlashes(ChooseBase(siteUrl, vercelUrl));
    if Contains(url, "http") then url else "https://" + url
  }

  /** `getURL(path)` */
  function GetURL(siteUrl: Option<string>, vercelUrl: Option<string>, path: string): (r: string)
    ensures var p := StripLeadingSlashes(path);
      r == if p == [] then Base(siteUrl, vercelUrl) else Base(siteUrl, vercelUrl) + "/" + p
  {
    var url := Base(siteUrl, vercelUrl);
    var p := StripLeadingSlashes(path);
    if p != [] then url + "/" + p else url
  }

  /** Leading slashes on the path never matter: `getURL("/x") == getURL("//x") == getURL("x")`. */
  lemma LeadingSlashesIrrelevant(siteUrl: Option<string>, vercelUrl: Option<string>, path: string)
    ensures GetURL(siteUrl, vercelUrl, "/" + path) == GetURL(siteUrl, vercelUrl, path)
  {
    assert ("/" + path)[1..] == path;
  }

  /** The normalised base never ends in "/" and always mentions "http", so an assembled URL
      never has a doubled slash at the joint. */
  lemma BaseShape(siteUrl: Option<string>, vercelUrl: Option<string>)
    ensures var b := Base(siteUrl, vercelUrl);
      Contains(b, "http") && (b == "https://" || b[|b| - 1] != '/')
  {
    var url := StripTrailingSlashes(ChooseBase(siteUrl, vercelUrl));
    if !Contains(url, "http") {
      var b := "https://" + url;
      assert StartsWith(b, "http") by { assert b[..4] == "http"; }
      if url != [] {
        assert b[|b| - 1] == url[|url| - 1];
      }
    }
  }

  /** With nothing configured the base is the local development server, without its slash. */
  lemma LocalDefault()
    ensures Base(None, None) == "http://localhost:3000"
  {
    var h := "http://localhost:3000";
    assert LocalBase == h + "/";
    assert LocalBase[..|LocalBase| - 1] == h;
    assert h[|h| - 1] == '0';
    assert StripTrailingSlashes(LocalBase) == StripTrailingSlashes(h) == h;
    assert StartsWith(h, "http");
  }

  /** A configured site URL that already names its scheme and has no trailing slash is used
      verbatim, and a path without a leading slash is appended after exactly one "/". */
  lemma ConfiguredSite(site: string, vercelUrl: Option<string>, path: string)
    requires site != [] && !IsWhitespace(site[0]) && site[|site| - 1] != '/' && StartsWith(site, "http")
    requires path != [] && path[0] != '/'
    ensures GetURL(Some(site), vercelUrl, path) == site + "/" + path
  {
    assert TrimStart(site) == site;
    assert Usable(Some(site));
  }

  /** `getURL('dashboard')` with the site URL set to "https://threadrize.com". */
  lemma DashboardExample(vercelUrl: Option<string>)
    ensures GetURL(Some("https://threadrize.com"), vercelUrl, "dashboard") == "https://threadrize.com/dashboard"
  {
    var site := "https://threadrize.com";
    assert site[|site| - 1] == 'm';
    assert StartsWith(site, "http");
    ConfiguredSite(site, vercelUrl, "dashboard");
  }

  // ---------------------------------------------------------------------------------------
  // estimateTokenCount

  /** `s.length`: UTF-16 code units, two for a character outside the Basic Multilingual Plane. */
  function Utf16Length(s: string): (n: nat)
    ensures |s| <= n <= 2 * |s|
  {
    if s == [] then 0 else Utf16Length(s[..|s| - 1]) + (if s[|s| - 1] as int > 0xFFFF then 2 else 1)
  }

  /** `Math.ceil(text.length / 4)` */
  function EstimateTokenCount(text: string): (r: nat)
    ensures 4 * r - 3 <= Utf16Length(text) <= 4 * r
    ensures r == 0 <==> text == []
  {
    (Utf16Length(text) + 3) / 4
  }

  /** A longer text never gets a smaller estimate. */
  lemma {:induction false} EstimateMonotone(a: string, b: string)
    ensures EstimateTokenCount(a) <= EstimateTokenCount(a + b)
  {
    Utf16LengthAppend(a, b);
  }

  lemma {:induction false} Utf16LengthAppend(a: string, b: string)
    ensures Utf16Length(a + b) == Utf16Length(a) + Utf16Length(b)
    decreases |b|
  {
    if b != [] {
      assert (a + b)[..|a + b| - 1] == a + b[..|b| - 1];
      Utf16LengthAppend(a, b[..|b| - 1]);
    } else {
      assert a + b == a;
    }
  }

  // ---------------------------------------------------------------------------------------
  // getInitials

  /** `s.split(' ')`: always at least one piece; repeated spaces give empty pieces. */
  function SplitSpaces(s: string): (words: seq<string>)
    ensures |words| >= 1
    ensures forall i :: 0 <= i < |words| ==> ' ' !in words[i]
  {
    if s == [] then [""]
    else
      var init := SplitSpaces(s[..|s| - 1]);
      var c := s[|s| - 1];
      if c == ' ' then init + [""]
      else init[..|init| - 1] + [init[|init| - 1] + [c]]
  }

  /** Splitting loses nothing: joining the pieces with single spaces gives the input back. */
  lemma {:induction false} SplitJoin(s: string)
    ensures Join(SplitSpaces(s), " ") == s
    decreases |s|
  {
    if s != [] {
      var init := SplitSpaces(s[..|s| - 1]);
      SplitJoin(s[..|s| - 1]);
      var c := s[|s| - 1];
      if c == ' ' {
        assert (init + [""])[..|init|] == init;
      } else {
        var k := |init| - 1;
        var words := init[..k] + [init[k] + [c]];
        assert words[..k] == init[..k];
        if k > 0 {
          assert init[..k] == init[..|init| - 1];
          assert Join(init, " ") == Join(init[..k], " ") + " " + init[k];
        }
      }
      assert s == s[..|s| - 1] + [s[|s| - 1]];
    }
  }

  /** The last piece is empty exactly when the text is empty or ends in a space. */
  lemma {:induction false} SplitLastEmpty(s: string)
    ensures var words := SplitSpaces(s); words[|words| - 1] == [] <==> s == [] || s[|s| - 1] == ' '
  {
  }

  /** `word[0]` for each piece, joined: undefined for an empty piece, which joins as "". */
  function FirstChars(words: seq<string>): string
  {
    if words == [] then []
    else
      var w := words[|words| - 1];
      FirstChars(words[..|words| - 1]) + (if w == [] then [] else [w[0]])
  }

  /** The characters that start a word: not a space, and first or after a space. */
  function WordStarts(s: string): (r: string)
    ensures |r| <= |s|
  {
    if s == [] then []
    else
      var n := |s| - 1;
      WordStarts(s[..n]) + (if s[n] != ' ' && (n == 0 || s[n - 1] == ' ') then [s[n]] else [])
  }

  lemma {:induction false} FirstCharsSnoc(words: seq<string>, w: string)
    ensures FirstChars(words + [w]) == FirstChars(words) + (if w == [] then [] else [w[0]])
  {
    assert (words + [w])[..|words|] == words;
  }

  /** The first characters of the pieces are exactly the word starts. */
  lemma {:induction false} FirstCharsAreWordStarts(s: string)
    ensures FirstChars(SplitSpaces(s)) == WordStarts(s)
    decreases |s|
  {
    if s != [] {
      var p, c := s[..|s| - 1], s[|s| - 1];
      assert s == p + [c];
      FirstCharsAreWordStarts(p);
      SplitLastEmpty(p);
      SplitSnoc(p, c);
      WordStartsSnoc(p, c);
      if c == ' ' {
        FirstCharsSnoc(SplitSpaces(p), "");
      } else {
        FirstCharsExtendLast(SplitSpaces(p), c);
      }
    }
  }

  /** One more character either starts a new piece (a space) or extends the last one. */
  lemma {:induction false} SplitSnoc(p: string, c: char)
    ensures var w := SplitSpaces(p);
      SplitSpaces(p + [c]) == if c == ' ' then w + [""] else w[..|w| - 1] + [w[|w| - 1] + [c]]
  {
    assert (p + [c])[..|p|] == p;
  }

  /** One more character is a word start when it is not a space and follows a space or nothing. */
  lemma {:induction false} WordStartsSnoc(p: string, c: char)
    ensures WordStarts(p + [c]) == WordStarts(p) + (if c != ' ' && (p == [] || p[|p| - 1] == ' ') then [c] else [])
  {
    var s := p + [c];
    assert s[..|p|] == p;
    if p != [] {
      assert s[|p| - 1] == p[|p| - 1];
    }
  }

  /** Appending a character to the last piece adds it to the first characters only when that
      piece was empty. */
  lemma {:induction false} FirstCharsExtendLast(words: seq<string>, c: char)
    requires |words| >= 1
    ensures var k := |words| - 1;
      FirstChars(words[..k] + [words[k] + [c]]) == FirstChars(words) + (if words[k] == [] then [c] else [])
  {
    var k := |words| - 1;
    var pre, last := words[..k], words[k];
    assert words == pre + [last];
    FirstCharsSnoc(pre, last);
    FirstCharsSnoc(pre, last + [c]);
    if last == [] {
      assert last + [c] == [c];
    } else {
      assert (last + [c])[0] == last[0];
    }
  }

  /** `toUpperCase()` on one character, for the ASCII letters. */
  function UpperChar(c: char): char
  {
    if 'a' <= c <= 'z' then (c as int - 32) as char else c
  }

  function Upper(s: string): (r: string)
    ensures |r| == |s|
    ensures forall i :: 0 <= i < |s| ==> r[i] == UpperChar(s[i])
  {
    seq(|s|, i requires 0 <= i < |s| => UpperChar(s[i]))
  }

  /** `getInitials(name)` */
  function GetInitials(name: string): (r: string)
  {
    var all := Upper(FirstChars(SplitSpaces(name)));
    if |all| <= 2 then all else all[..2]
  }

  /** The initials are the upper-cased first letters of the first two space-separated words;
      empty words from repeated spaces contribute nothing. */
  lemma InitialsOfWords(name: string)
    ensures var starts := Upper(WordStarts(name));
      GetInitials(name) == if |starts| <= 2 then starts else starts[..2]
    ensures |GetInitials(name)| <= 2
  {
    FirstCharsAreWordStarts(name);
  }

  /** The empty name, or one of spaces only, has no initials. */
  lemma NoWordsNoInitials(name: string)
    requires forall i :: 0 <= i < |name| ==> name[i] == ' '
    ensures GetInitials(name) == ""
  {
    FirstCharsAreWordStarts(name);
    NoWordStarts(name);
  }

  lemma {:induction false} NoWordStarts(s: string)
    requires forall i :: 0 <= i < |s| ==> s[i] == ' '
    ensures WordStarts(s) == []
  {
    if s != [] {
      NoWordStarts(s[..|s| - 1]);
    }
  }
}
