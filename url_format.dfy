/**
 * The fanart.tv request URL: the FanArtBaseUrl template filled in with
 * string.Format from the API key and the MusicBrainz artist id.
 */
module UrlFormat {
  import opened FanArtTypes

  const FAN_ART_BASE_URL: string := "http://api.fanart.tv/webservice/artist/{0}/{1}/xml/all/1/1"

  const URL_PREFIX: string := "http://api.fanart.tv/webservice/artist/"
  const URL_SUFFIX: string := "/xml/all/1/1"

  predicate HasNoBraces(s: string) {
    forall i :: 0 <= i < |s| ==> s[i] != '{' && s[i] != '}'
  }

  /** Prefix a piece of output to a formatting result; a format error stays an error. */
  function Prepend(piece: string, rest: Option<string>): Option<string> {
    match rest
    case None => None
    case Some(s) => Some(piece + s)
  }

  /**
   * Composite formatting for plain placeholders: "{d}" (one decimal digit d
   * below the number of arguments) is replaced by argument d, "{{" and "}}"
   * stand for single braces, and any other brace is a format error (None,
   * where string.Format throws a FormatException).
   */
  function Format(template: string, args: seq<string>): Option<string>
    decreases |template|
  {
    if template == [] then Some("")
    else if |template| >= 2 && template[0] == '{' && template[1] == '{' then
      Prepend("{", Format(template[2..], args))
    else if |template| >= 2 && template[0] == '}' && template[1] == '}' then
      Prepend("}", Format(template[2..], args))
    else if |template| >= 3 && template[0] == '{' && IsDigit(template[1]) && template[2] == '}'
            && (template[1] as int - '0' as int) < |args| then
      Prepend(args[template[1] as int - '0' as int], Format(template[3..], args))
    else if template[0] == '{' || template[0] == '}' then None
    else Prepend([template[0]], Format(template[1..], args))
  }

  /** string.Format renders a null argument as the empty string. */
  function ArgText(id: Option<string>): string {
    if id.Some? then id.value else ""
  }

  /** The URL FetchAsync requests for an item. */
  function ArtistUrl(apiKey: string, musicBrainzId: Option<string>): Option<string> {
    Format(FAN_ART_BASE_URL, [apiKey, ArgText(musicBrainzId)])
  }

  /** Text without braces is copied through unchanged, ahead of whatever follows it. */
  lemma {:induction false} FormatLiteralPrefix(literal: string, rest: string, args: seq<string>)
    requires HasNoBraces(literal)
    ensures Format(literal + rest, args) == Prepend(literal, Format(rest, args))
    decreases |literal|
  {
    if literal == [] {
      assert literal + rest == rest;
      match Format(rest, args)
      case None =>
      case Some(s) => assert literal + s == s;
    } else {
      var t := literal + rest;
      assert t[0] == literal[0];
      assert t[1..] == literal[1..] + rest;
      FormatLiteralPrefix(literal[1..], rest, args);
      match Format(rest, args)
      case None =>
      case Some(s) => assert [literal[0]] + (literal[1..] + s) == literal + s;
    }
  }

  /** A placeholder "{d}" is replaced by the d-th argument. */
  lemma FormatPlaceholder(d: nat, rest: string, args: seq<string>)
    requires d < 10 && d < |args|
    ensures Format(['{', ('0' as int + d) as char, '}'] + rest, args) == Prepend(args[d], Format(rest, args))
  {
    var t := ['{', ('0' as int + d) as char, '}'] + rest;
    assert t[3..] == rest;
  }

  /** Brace-free text formats to itself. */
  lemma FormatLiteral(literal: string, args: seq<string>)
    requires HasNoBraces(literal)
    ensures Format(literal, args) == Some(literal)
  {
    FormatLiteralPrefix(literal, "", args);
    assert literal + "" == literal;
  }

  lemma ConcatRegroup(a: string, b: string, c: string, d: string, e: string)
    ensures a + (b + (c + (d + e))) == a + b + c + d + e
  {
    assert a + (b + (c + (d + e))) == a + b + (c + (d + e));
    assert a + b + (c + (d + e)) == a + b + c + (d + e);
  }

  /** A template with two placeholders between brace-free texts. */
  lemma FormatTwoPlaceholders(before: string, between: string, after: string, args: seq<string>)
    requires HasNoBraces(before) && HasNoBraces(between) && HasNoBraces(after)
    requires |args| == 2
    ensures Format(before + ("{0}" + (between + ("{1}" + after))), args) == Some(before + args[0] + between + args[1] + after)
  {
    assert "{0}" == ['{', ('0' as int + 0) as char, '}'];
    assert "{1}" == ['{', ('0' as int + 1) as char, '}'];
    var tail := "{1}" + after;
    var mid := between + tail;
    var t := "{0}" + mid;
    FormatLiteral(after, args);
    FormatPlaceholder(1, after, args);
    assert Format(tail, args) == Some(args[1] + after);
    FormatLiteralPrefix(between, tail, args);
    assert Format(mid, args) == Some(between + (args[1] + after));
    FormatPlaceholder(0, mid, args);
    assert Format(t, args) == Some(args[0] + (between + (args[1] + after)));
    FormatLiteralPrefix(before, t, args);
    ConcatRegroup(before, args[0], between, args[1], after);
    assert Format(before + t, args) == Some(before + args[0] + between + args[1] + after);
  }

  /** The request URL is the fixed prefix, the API key, "/", the id and the fixed suffix. */
  lemma ArtistUrlShape(apiKey: string, musicBrainzId: Option<string>)
    ensures ArtistUrl(apiKey, musicBrainzId) == Some(URL_PREFIX + apiKey + "/" + ArgText(musicBrainzId) + URL_SUFFIX)
  {
    assert FAN_ART_BASE_URL == URL_PREFIX + ("{0}" + ("/" + ("{1}" + URL_SUFFIX)));
    assert HasNoBraces(URL_PREFIX) && HasNoBraces("/") && HasNoBraces(URL_SUFFIX);
    FormatTwoPlaceholders(URL_PREFIX, "/", URL_SUFFIX, [apiKey, ArgText(musicBrainzId)]);
  }

  predicate HasNoSlash(s: string) {
    forall i :: 0 <= i < |s| ==> s[i] != '/'
  }

  /** The characters of "prefix + key + '/' + rest" just after the prefix. */
  lemma CharAfterPrefix(prefix: string, key: string, rest: string, i: nat)
    requires i <= |key|
    ensures |prefix| + i < |prefix + key + "/" + rest|
    ensures (prefix + key + "/" + rest)[|prefix| + i] == if i < |key| then key[i] else '/'
  {
  }

  /**
   * Splitting "prefix + key + '/' + id + suffix" back into its parts is
   * unambiguous when the key contains no '/'.
   */
  lemma SplitAtFirstSlash(prefix: string, key1: string, id1: string, key2: string, id2: string, suffix: string)
    requires HasNoSlash(key1) && HasNoSlash(key2)
    requires prefix + key1 + "/" + id1 + suffix == prefix + key2 + "/" + id2 + suffix
    ensures key1 == key2 && id1 == id2
  {
    var u := prefix + key1 + "/" + id1 + suffix;
    var v := prefix + key2 + "/" + id2 + suffix;
    assert u == prefix + key1 + "/" + (id1 + suffix);
    assert v == prefix + key2 + "/" + (id2 + suffix);
    var m := if |key1| < |key2| then |key1| else |key2|;
    CharAfterPrefix(prefix, key1, id1 + suffix, m);
    CharAfterPrefix(prefix, key2, id2 + suffix, m);
    assert |key1| == |key2|;
    var p := |prefix|;
    assert key1 == u[p..p + |key1|] == v[p..p + |key2|] == key2;
    assert |id1| == |id2|;
    var q := p + |key1| + 1;
    assert id1 == u[q..q + |id1|] == v[q..q + |id2|] == id2;
  }

  /**
   * Two requests go to the same URL exactly when they use the same API key
   * and the same artist id text, as long as the API keys contain no '/'.
   */
  lemma ArtistUrlInjective(key1: string, id1: Option<string>, key2: string, id2: Option<string>)
    requires HasNoSlash(key1) && HasNoSlash(key2)
    ensures ArtistUrl(key1, id1) == ArtistUrl(key2, id2) <==> key1 == key2 && ArgText(id1) == ArgText(id2)
  {
    ArtistUrlShape(key1, id1);
    ArtistUrlShape(key2, id2);
    if ArtistUrl(key1, id1) == ArtistUrl(key2, id2) {
      SplitAtFirstSlash(URL_PREFIX, key1, ArgText(id1), key2, ArgText(id2), URL_SUFFIX);
    }
  }
}
