/**
 * The string helpers of the crate root: game-version truncation, the
 * summoner slug (`<game name>-<tag line>`, each part percent-encoded) and
 * the two summoner URLs.
 *
 * Percent-encoding is a foreign library. It is passed in as a `UrlCodec`
 * and what the helpers rely on is stated once, in `PercentEncodingLaws`:
 * decoding undoes encoding, `-` is unreserved (section 2.3 of RFC 3986) so
 * it survives encoding and no escape `%HH` (section 2.1) introduces one,
 * and the reserved `/` and `&` never survive encoding.
 */
module Slugs {
  import opened Wrappers

  /** Joins parts with one separator between neighbours, the inverse of `Split`. */
  function Join(parts: seq<string>, sep: char): string
    requires |parts| >= 1
  {
    if |parts| == 1 then parts[0] else parts[0] + [sep] + Join(parts[1..], sep)
  }

  /**
   * `s.split(sep).collect()`: the maximal separator-free pieces, in order;
   * the empty string gives one empty piece.
   */
  function Split(s: string, sep: char): (parts: seq<string>)
    ensures |parts| >= 1
    ensures forall k | 0 <= k < |parts| :: sep !in parts[k]
    ensures Join(parts, sep) == s
  {
    if |s| == 0 then [""]
    else
      var rest := Split(s[1..], sep);
      if s[0] == sep then [""] + rest
      else [[s[0]] + rest[0]] + rest[1..]
  }

  /** Splitting is the only way to cut `s` into separator-free parts. */
  lemma {:induction false} SplitUnique(s: string, sep: char, parts: seq<string>)
    requires |parts| >= 1
    requires forall k | 0 <= k < |parts| :: sep !in parts[k]
    requires Join(parts, sep) == s
    ensures Split(s, sep) == parts
    decreases |s|, |parts[0]|
  {
    if |parts| == 1 {
      SplitNoSeparator(s, sep);
    } else if parts[0] == [] {
      var tail := parts[1..];
      assert s == [sep] + Join(tail, sep);
      assert s[1..] == Join(tail, sep);
      SplitUnique(s[1..], sep, tail);
    } else {
      var head := parts[0][1..];
      var shorter := [head] + parts[1..];
      assert shorter[1..] == parts[1..];
      assert Join(shorter, sep) == head + [sep] + Join(parts[1..], sep);
      assert s == [parts[0][0]] + Join(shorter, sep);
      assert s[1..] == Join(shorter, sep);
      SplitUnique(s[1..], sep, shorter);
      assert [s[0]] + head == parts[0];
      assert parts == [parts[0]] + parts[1..];
    }
  }

  /** A string without the separator splits into itself. */
  lemma {:induction false} SplitNoSeparator(s: string, sep: char)
    requires sep !in s
    ensures Split(s, sep) == [s]
    decreases |s|
  {
    if |s| > 0 {
      assert sep !in s[1..] by { assert forall i | 0 <= i < |s| - 1 :: s[1..][i] == s[i + 1]; }
      SplitNoSeparator(s[1..], sep);
    }
  }

  /** Splitting `a + [sep] + b`, where `a` lacks the separator, peels `a` off the front. */
  lemma SplitAfterFirst(a: string, b: string, sep: char)
    requires sep !in a
    ensures Split(a + [sep] + b, sep) == [a] + Split(b, sep)
  {
    var parts := [a] + Split(b, sep);
    assert parts[1..] == Split(b, sep);
    SplitUnique(a + [sep] + b, sep, parts);
  }

  // ---------------------------------------------------------------- versions

  /**
   * `version_to_major_minor`: the first two `.`-separated parts joined by a
   * dot. A version with fewer than two parts panics, hence the precondition.
   */
  function VersionToMajorMinor(version: string): (r: string)
    requires |Split(version, '.')| >= 2
    ensures Split(r, '.') == Split(version, '.')[..2]
    ensures r <= version
  {
    var parts := Split(version, '.');
    var r := parts[0] + "." + parts[1];
    SplitAfterFirst(parts[0], parts[1], '.');
    SplitNoSeparator(parts[1], '.');
    assert Split(version, '.')[..2] == [parts[0], parts[1]];
    JoinPrefix(parts, '.');
    r
  }

  /** The first two parts, joined, are a prefix of the whole join. */
  lemma JoinPrefix(parts: seq<string>, sep: char)
    requires |parts| >= 2
    ensures parts[0] + [sep] + parts[1] <= Join(parts, sep)
  {
    assert Join(parts, sep) == parts[0] + [sep] + Join(parts[1..], sep);
    var tail := parts[1..];
    if |tail| > 1 {
      assert Join(tail, sep) == tail[0] + [sep] + Join(tail[1..], sep);
    }
    assert parts[1] <= Join(tail, sep);
  }

  /** Truncating an already truncated version changes nothing. */
  lemma VersionIdempotent(version: string)
    requires |Split(version, '.')| >= 2
    ensures |Split(VersionToMajorMinor(version), '.')| == 2
    ensures VersionToMajorMinor(VersionToMajorMinor(version)) == VersionToMajorMinor(version)
  {
    var r := VersionToMajorMinor(version);
    var parts := Split(r, '.');
    assert |parts| == 2;
    assert Join(parts, '.') == parts[0] + "." + parts[1];
  }

  /** A version with no dot at all, the empty string included, is refused. */
  lemma VersionWithoutDotPanics(version: string)
    requires '.' !in version
    ensures |Split(version, '.')| < 2
  {
    SplitNoSeparator(version, '.');
  }

  // ------------------------------------------------------------------- slugs

  /** `urlencoding::encode` and `urlencoding::decode` (None for its error). */
  datatype UrlCodec = UrlCodec(encode: string -> string, decode: string -> Option<string>)

  /** What the helpers assume of percent-encoding (sections 2.1 and 2.3 of RFC 3986). */
  ghost predicate PercentEncodingLaws(c: UrlCodec) {
    && (forall s :: c.decode(c.encode(s)) == Some(s))
    && (forall s :: '-' in c.encode(s) <==> '-' in s)
    && (forall s :: '/' !in c.encode(s) && '&' !in c.encode(s))
  }

  /** `summoner_to_slug`: both names encoded, joined by `-`. */
  function SummonerToSlug(c: UrlCodec, gameName: string, tagLine: string): string {
    c.encode(gameName) + "-" + c.encode(tagLine)
  }

  /**
   * `parse_summoner_slug`: split on `-`; with exactly two pieces both are
   * decoded, otherwise the first piece is decoded and the tag line is
   * empty. A piece that fails to decode panics (`.ok().unwrap()`), hence
   * the preconditions.
   */
  function ParseSummonerSlug(c: UrlCodec, slug: string): (string, string)
    requires c.decode(Split(slug, '-')[0]).Some?
    requires |Split(slug, '-')| == 2 ==> c.decode(Split(slug, '-')[1]).Some?
  {
    var parts := Split(slug, '-');
    var gameName := c.decode(parts[0]).value;
    if |parts| == 2 then (gameName, c.decode(parts[1]).value) else (gameName, "")
  }

  /** Joining two non-empty lists of parts is joining their joins. */
  lemma {:induction false} JoinAppend(x: seq<string>, y: seq<string>, sep: char)
    requires |x| >= 1 && |y| >= 1
    ensures Join(x + y, sep) == Join(x, sep) + [sep] + Join(y, sep)
    decreases |x|
  {
    if |x| == 1 {
      assert (x + y)[1..] == y;
    } else {
      assert (x + y)[1..] == x[1..] + y;
      JoinAppend(x[1..], y, sep);
    }
  }

  lemma JoinCons(x: string, rest: seq<string>, sep: char)
    requires |rest| >= 1
    ensures Join([x] + rest, sep) == x + [sep] + Join(rest, sep)
  {
    assert ([x] + rest)[1..] == rest;
  }

  /** Splitting at one separator splits each side independently. */
  lemma SplitConcat(a: string, b: string, sep: char)
    ensures Split(a + [sep] + b, sep) == Split(a, sep) + Split(b, sep)
  {
    var parts := Split(a, sep) + Split(b, sep);
    JoinAppend(Split(a, sep), Split(b, sep), sep);
    assert forall k | 0 <= k < |parts| :: sep !in parts[k] by {
      forall k | 0 <= k < |parts| ensures sep !in parts[k] {
        if k >= |Split(a, sep)| {
          assert parts[k] == Split(b, sep)[k - |Split(a, sep)|];
        }
      }
    }
    SplitUnique(a + [sep] + b, sep, parts);
  }

  /** A string holds the separator exactly when it splits into two or more pieces. */
  lemma SplitCount(s: string, sep: char)
    ensures sep in s <==> |Split(s, sep)| >= 2
  {
    var parts := Split(s, sep);
    if |parts| >= 2 {
      assert Join(parts, sep) == parts[0] + [sep] + Join(parts[1..], sep);
      assert s[|parts[0]|] == sep;
    }
  }

  /**
   * The slug round trip: a game name and tag line free of `-` come back
   * unchanged from their slug, and no decoding step panics.
   */
  lemma SlugRoundTrip(c: UrlCodec, gameName: string, tagLine: string)
    requires PercentEncodingLaws(c)
    requires '-' !in gameName && '-' !in tagLine
    ensures var slug := SummonerToSlug(c, gameName, tagLine);
      && Split(slug, '-') == [c.encode(gameName), c.encode(tagLine)]
      && ParseSummonerSlug(c, slug) == (gameName, tagLine)
  {
    var g, t := c.encode(gameName), c.encode(tagLine);
    assert '-' !in g && '-' !in t;
    SplitConcat(g, t, '-');
    SplitNoSeparator(g, '-');
    SplitNoSeparator(t, '-');
    assert c.decode(g) == Some(gameName) && c.decode(t) == Some(tagLine);
  }

  /**
   * A `-` in either name survives encoding, so the slug has three or more
   * pieces and the parsed tag line is empty (when parsing does not panic).
   */
  lemma SlugWithHyphenLosesTagLine(c: UrlCodec, gameName: string, tagLine: string)
    requires PercentEncodingLaws(c)
    requires '-' in gameName || '-' in tagLine
    ensures var slug := SummonerToSlug(c, gameName, tagLine);
      && |Split(slug, '-')| >= 3
      && (c.decode(Split(slug, '-')[0]).Some? ==> ParseSummonerSlug(c, slug).1 == "")
  {
    var g, t := c.encode(gameName), c.encode(tagLine);
    SplitConcat(g, t, '-');
    SplitCount(g, '-');
    SplitCount(t, '-');
  }

  // -------------------------------------------------------------------- URLs

  /** `summoner_url`: the summoner page of a platform, addressed by slug. */
  function SummonerUrl(c: UrlCodec, platform: string, gameName: string, tagLine: string): string {
    "/platform/" + platform + "/summoners/" + SummonerToSlug(c, gameName, tagLine)
  }

  /**
   * With a platform free of `/`, the URL has exactly the segments
   * "", "platform", the platform, "summoners" and the slug, so the page
   * reads back the slug that `SlugRoundTrip` parses.
   */
  lemma SummonerUrlSegments(c: UrlCodec, platform: string, gameName: string, tagLine: string)
    requires PercentEncodingLaws(c)
    requires '/' !in platform
    ensures Split(SummonerUrl(c, platform, gameName, tagLine), '/')
         == ["", "platform", platform, "summoners", SummonerToSlug(c, gameName, tagLine)]
  {
    var slug := SummonerToSlug(c, gameName, tagLine);
    var g, t := c.encode(gameName), c.encode(tagLine);
    assert '/' !in g && '/' !in t;
    assert '/' !in slug;
    var tail := "summoners" + ['/'] + slug;
    var mid := platform + ['/'] + tail;
    var rest := "platform" + ['/'] + mid;
    assert SummonerUrl(c, platform, gameName, tagLine) == "" + ['/'] + rest by {
      assert "/platform/" == ['/'] + "platform" + ['/'];
      assert "/summoners/" == ['/'] + "summoners" + ['/'];
    }
    SplitPair("summoners", slug, '/');
    SplitAfterFirst(platform, tail, '/');
    SplitAfterFirst("platform", mid, '/');
    SplitAfterFirst("", rest, '/');
  }

  /** `summoner_not_found_url`: the search page, with the names put in raw. */
  function SummonerNotFoundUrl(platform: string, gameName: string, tagLine: string): string {
    "/platform/" + platform + "?game_name=" + gameName + "&tag_line=" + tagLine
  }

  /**
   * When no value holds `?` or `&`, the query splits into the two
   * parameters carrying the names verbatim, unencoded.
   */
  lemma NotFoundUrlQuery(platform: string, gameName: string, tagLine: string)
    requires '?' !in platform && '?' !in gameName && '?' !in tagLine
    requires '&' !in gameName && '&' !in tagLine
    ensures var url := SummonerNotFoundUrl(platform, gameName, tagLine);
      && Split(url, '?') == ["/platform/" + platform, "game_name=" + gameName + "&tag_line=" + tagLine]
      && Split(Split(url, '?')[1], '&') == ["game_name=" + gameName, "tag_line=" + tagLine]
  {
    var path := "/platform/" + platform;
    var name, tag := "game_name=" + gameName, "tag_line=" + tagLine;
    var query := name + ['&'] + tag;
    assert query == "game_name=" + gameName + "&tag_line=" + tagLine by {
      assert "&tag_line=" == ['&'] + "tag_line=";
    }
    assert '?' !in path && '?' !in query;
    assert SummonerNotFoundUrl(platform, gameName, tagLine) == path + ['?'] + query;
    SplitPair(path, query, '?');
    assert '&' !in name && '&' !in tag;
    SplitPair(name, tag, '&');
  }

  /** Two separator-free parts around one separator split back into those two. */
  lemma SplitPair(a: string, b: string, sep: char)
    requires sep !in a && sep !in b
    ensures Split(a + [sep] + b, sep) == [a, b]
  {
    SplitAfterFirst(a, b, sep);
    SplitNoSeparator(b, sep);
  }

  /** Because nothing is encoded, two different accounts can share one URL. */
  lemma NotFoundUrlAmbiguous()
    ensures SummonerNotFoundUrl("euw1", "a&tag_line=b", "c")
         == SummonerNotFoundUrl("euw1", "a", "b&tag_line=c")
  {
  }
}
