/**
 * `ContentTypeParser.parse(url:)`: classifies a URL by its lower-cased host
 * (and, for the `goo.gl` shortener, its path). Total and pure.
 */
module ContentTypeParser {
  import opened Wrappers
  import opened Domain

  /** Lower-cases one character (ASCII letters only). */
  function LowerChar(c: char): char {
    if 'A' <= c <= 'Z' then (c as int + 32) as char else c
  }

  /**
   * `String.lowercased()`, character by character: the result has no ASCII
   * capital left, each capital becomes its small letter and every other
   * character is kept.
   */
  function Lowercased(s: string): (r: string)
    ensures |r| == |s|
    ensures forall i :: 0 <= i < |r| ==> !('A' <= r[i] <= 'Z')
    ensures forall i :: 0 <= i < |s| && 'A' <= s[i] <= 'Z' ==> r[i] as int == s[i] as int + 32
    ensures forall i :: 0 <= i < |s| && !('A' <= s[i] <= 'Z') ==> r[i] == s[i]
  {
    seq(|s|, i requires 0 <= i < |s| => LowerChar(s[i]))
  }

  predicate HasSuffix(s: string, suffix: string) {
    |suffix| <= |s| && s[|s| - |suffix|..] == suffix
  }

  predicate HasPrefix(s: string, prefix: string) {
    |prefix| <= |s| && s[..|prefix|] == prefix
  }

  // The host set of each category, on an already lower-cased host.

  predicate IsYouTubeHost(host: string) {
    host == "youtube.com" || HasSuffix(host, ".youtube.com") || host == "youtu.be"
  }

  predicate IsInstagramHost(host: string) {
    host == "instagram.com" || HasSuffix(host, ".instagram.com")
  }

  predicate IsNaverMapHost(host: string) {
    host == "map.naver.com" || host == "naver.me"
  }

  predicate IsGoogleMapHost(host: string) {
    host == "maps.google.com" || host == "maps.app.goo.gl"
  }

  /** The shared `goo.gl` shortener leads to Google Maps only under `/maps`. */
  predicate IsGoogleMapShortLink(host: string, path: string) {
    host == "goo.gl" && HasPrefix(path, "/maps")
  }

  predicate IsCoupangHost(host: string) {
    host == "coupang.com" || HasSuffix(host, ".coupang.com") || host == "coupa.ng"
  }

  /** The classifier, rule by rule in the order `parse(url:)` tests them. */
  function Parse(url: Url): ContentType {
    match url.host
    case None => Web
    case Some(h) =>
      var host := Lowercased(h);
      if IsYouTubeHost(host) then YouTube
      else if IsInstagramHost(host) then Instagram
      else if IsNaverMapHost(host) then NaverMap
      else if IsGoogleMapHost(host) then GoogleMap
      else if IsGoogleMapShortLink(host, url.path) then GoogleMap
      else if IsCoupangHost(host) then Coupang
      else Web
  }

  /** Whether a lower-cased host (with its path) belongs to the host set of category `t`; `Web` has none. */
  predicate InHostSet(t: ContentType, host: string, path: string) {
    match t
    case Web => false
    case YouTube => IsYouTubeHost(host)
    case Instagram => IsInstagramHost(host)
    case NaverMap => IsNaverMapHost(host)
    case GoogleMap => IsGoogleMapHost(host) || IsGoogleMapShortLink(host, path)
    case Coupang => IsCoupangHost(host)
  }

  /** The same rules tested bottom-up: a reference for showing that rule order is irrelevant. */
  function ParseBottomUp(url: Url): ContentType {
    match url.host
    case None => Web
    case Some(h) =>
      var host := Lowercased(h);
      if IsCoupangHost(host) then Coupang
      else if IsGoogleMapShortLink(host, url.path) then GoogleMap
      else if IsGoogleMapHost(host) then GoogleMap
      else if IsNaverMapHost(host) then NaverMap
      else if IsInstagramHost(host) then Instagram
      else if IsYouTubeHost(host) then YouTube
      else Web
  }

  // ----- Lemmas -----

  /** A URL without a host is generic web content. */
  lemma NoHostIsWeb(url: Url)
    requires url.host.None?
    ensures Parse(url) == Web
  {
  }

  lemma {:induction false} LowercasedIdempotent(s: string)
    ensures Lowercased(Lowercased(s)) == Lowercased(s)
  {
    var once := Lowercased(s);
    var twice := Lowercased(once);
    assert |twice| == |once|;
    forall i | 0 <= i < |once| ensures twice[i] == once[i] {
      assert once[i] == LowerChar(s[i]);
    }
  }

  /** Classification ignores the case of the host: a host and its lower-cased form classify alike. */
  lemma CaseInsensitive(url: Url, h: string)
    requires url.host == Some(h)
    ensures Parse(url) == Parse(url.(host := Some(Lowercased(h))))
  {
    LowercasedIdempotent(h);
  }

  /** Any two hosts that differ only in letter case classify alike. */
  lemma SameLowercaseSameCategory(a: Url, b: Url)
    requires a.host.Some? && b.host.Some? && a.path == b.path
    requires Lowercased(a.host.value) == Lowercased(b.host.value)
    ensures Parse(a) == Parse(b)
  {
  }

  /** Two suffixes of one string: the shorter is a suffix of the longer. */
  lemma {:induction false} SuffixOfSuffix(s: string, a: string, b: string)
    requires HasSuffix(s, a) && HasSuffix(s, b) && |a| <= |b|
    ensures HasSuffix(b, a)
  {
    assert b[|b| - |a|..] == s[|s| - |b|..][|b| - |a|..];
    assert s[|s| - |b|..][|b| - |a|..] == s[|s| - |a|..];
  }

  lemma YouTubeNotInstagram(host: string)
    ensures !(IsYouTubeHost(host) && IsInstagramHost(host))
  {
    if HasSuffix(host, ".youtube.com") && HasSuffix(host, ".instagram.com") {
      SuffixOfSuffix(host, ".youtube.com", ".instagram.com");
      assert false;
    }
  }

  lemma YouTubeNotCoupang(host: string)
    ensures !(IsYouTubeHost(host) && IsCoupangHost(host))
  {
    if HasSuffix(host, ".youtube.com") && HasSuffix(host, ".coupang.com") {
      SuffixOfSuffix(host, ".youtube.com", ".coupang.com");
      assert false;
    }
  }

  lemma InstagramNotCoupang(host: string)
    ensures !(IsInstagramHost(host) && IsCoupangHost(host))
  {
    if HasSuffix(host, ".coupang.com") && HasSuffix(host, ".instagram.com") {
      SuffixOfSuffix(host, ".coupang.com", ".instagram.com");
      assert false;
    }
  }

  /** A suffix fixes the characters at both of its ends. */
  lemma SuffixEnds(s: string, suffix: string)
    requires HasSuffix(s, suffix) && |suffix| > 0
    ensures s[|s| - |suffix|] == suffix[0] && s[|s| - 1] == suffix[|suffix| - 1]
  {
    assert s[|s| - |suffix|..][0] == suffix[0];
    assert s[|s| - |suffix|..][|suffix| - 1] == suffix[|suffix| - 1];
  }

  /** No map host ends in a suffix the YouTube, Instagram or Coupang rules accept. */
  lemma MapHostNotYouTube(host: string, path: string)
    requires IsNaverMapHost(host) || IsGoogleMapHost(host) || IsGoogleMapShortLink(host, path)
    ensures !IsYouTubeHost(host)
  {
    if HasSuffix(host, ".youtube.com") {
      SuffixEnds(host, ".youtube.com");
    }
  }

  lemma MapHostNotInstagram(host: string, path: string)
    requires IsNaverMapHost(host) || IsGoogleMapHost(host) || IsGoogleMapShortLink(host, path)
    ensures !IsInstagramHost(host)
  {
    if HasSuffix(host, ".instagram.com") {
      SuffixEnds(host, ".instagram.com");
    }
  }

  lemma MapHostNotCoupang(host: string, path: string)
    requires IsNaverMapHost(host) || IsGoogleMapHost(host) || IsGoogleMapShortLink(host, path)
    ensures !IsCoupangHost(host)
  {
    if HasSuffix(host, ".coupang.com") {
      SuffixEnds(host, ".coupang.com");
    }
  }

  /** No lower-cased host lies in the host sets of two of the rules. */
  lemma HostRulesExclusive(host: string, path: string)
    ensures !(IsYouTubeHost(host) && IsInstagramHost(host))
    ensures !(IsYouTubeHost(host) && (IsNaverMapHost(host) || IsGoogleMapHost(host) || IsGoogleMapShortLink(host, path)))
    ensures !(IsYouTubeHost(host) && IsCoupangHost(host))
    ensures !(IsInstagramHost(host) && (IsNaverMapHost(host) || IsGoogleMapHost(host) || IsGoogleMapShortLink(host, path)))
    ensures !(IsInstagramHost(host) && IsCoupangHost(host))
    ensures !(IsNaverMapHost(host) && (IsGoogleMapHost(host) || IsGoogleMapShortLink(host, path)))
    ensures !(IsNaverMapHost(host) && IsCoupangHost(host))
    ensures !((IsGoogleMapHost(host) || IsGoogleMapShortLink(host, path)) && IsCoupangHost(host))
  {
    YouTubeNotInstagram(host);
    YouTubeNotCoupang(host);
    InstagramNotCoupang(host);
    if IsNaverMapHost(host) || IsGoogleMapHost(host) || IsGoogleMapShortLink(host, path) {
      MapHostNotYouTube(host, path);
      MapHostNotInstagram(host, path);
      MapHostNotCoupang(host, path);
    }
  }

  /** The host sets of two different categories never share a host: rule order cannot matter. */
  lemma HostSetsDisjoint(t1: ContentType, t2: ContentType, host: string, path: string)
    requires t1 != t2
    ensures !(InHostSet(t1, host, path) && InHostSet(t2, host, path))
  {
    HostRulesExclusive(host, path);
  }

  /**
   * The classifier's full characterisation: a URL with a host is given
   * category `t` (other than `Web`) exactly when its lower-cased host is in
   * `t`'s host set, and `Web` exactly when it has no host or is in no host set.
   */
  lemma ParseIff(url: Url, t: ContentType)
    ensures t != Web ==>
      (Parse(url) == t <==> url.host.Some? && InHostSet(t, Lowercased(url.host.value), url.path))
    ensures Parse(url) == Web <==>
      (url.host.None? || forall c :: !InHostSet(c, Lowercased(url.host.value), url.path))
  {
    if url.host.Some? {
      var host := Lowercased(url.host.value);
      HostRulesExclusive(host, url.path);
      if Parse(url) == Web {
        forall c ensures !InHostSet(c, host, url.path) { }
      } else {
        assert InHostSet(Parse(url), host, url.path);
      }
    }
  }

  /** Testing the rules in the opposite order gives the same category for every URL. */
  lemma RuleOrderIrrelevant(url: Url)
    ensures Parse(url) == ParseBottomUp(url)
  {
    if url.host.Some? {
      HostRulesExclusive(Lowercased(url.host.value), url.path);
    }
  }

  /** A host under `.naver.com` other than the map host is no YouTube or Instagram host. */
  lemma NaverSubdomainNotVideo(h: string)
    requires HasSuffix(h, ".naver.com") && h != "map.naver.com"
    ensures !IsYouTubeHost(h) && !IsInstagramHost(h)
  {
    SuffixEnds(h, ".naver.com");
    if HasSuffix(h, ".youtube.com") {
      SuffixOfSuffix(h, ".naver.com", ".youtube.com");
    }
    if HasSuffix(h, ".instagram.com") {
      SuffixOfSuffix(h, ".naver.com", ".instagram.com");
    }
  }

  /** A host under `.naver.com` other than the map host is in no map or Coupang host set. */
  lemma NaverSubdomainNotMapOrShop(h: string, path: string)
    requires HasSuffix(h, ".naver.com") && h != "map.naver.com"
    ensures !IsNaverMapHost(h) && !IsGoogleMapHost(h) && !IsGoogleMapShortLink(h, path) && !IsCoupangHost(h)
  {
    SuffixEnds(h, ".naver.com");
    if HasSuffix(h, ".coupang.com") {
      SuffixOfSuffix(h, ".naver.com", ".coupang.com");
    }
  }

  /**
   * Naver hosts other than `map.naver.com`, such as `naver.com` itself or
   * `blog.naver.com`, are generic web content.
   */
  lemma OtherNaverHostIsWeb(url: Url)
    requires url.host.Some?
    requires var h := Lowercased(url.host.value);
      (h == "naver.com" || HasSuffix(h, ".naver.com")) && h != "map.naver.com"
    ensures Parse(url) == Web
  {
    var h := Lowercased(url.host.value);
    if h != "naver.com" {
      NaverSubdomainNotVideo(h);
      NaverSubdomainNotMapOrShop(h, url.path);
    }
  }

  /** `goo.gl` is Google Maps exactly under the `/maps` path prefix, and web content otherwise. */
  lemma GooGlShortener(url: Url)
    requires url.host.Some? && Lowercased(url.host.value) == "goo.gl"
    ensures Parse(url) == (if HasPrefix(url.path, "/maps") then GoogleMap else Web)
  {
  }

  /** Mixed-case hosts are lower-cased first: `WWW.YouTube.COM` is YouTube. */
  lemma MixedCaseYouTube(url: Url)
    requires url.host == Some("WWW.YouTube.COM")
    ensures Parse(url) == YouTube
  {
    var host := Lowercased("WWW.YouTube.COM");
    assert host[3..] == ".youtube.com";
  }
}
