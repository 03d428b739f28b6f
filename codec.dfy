/**
 * A serialise/parse pair standing in for `JSON.stringify`/`JSON.parse` on what the source
 * stores: lists of strings, each written between double quotes with `"` and `\` escaped by a
 * backslash, as JSON writes string literals. Parsing is partial: anything that is not such a
 * list is rejected, as `JSON.parse` throws on malformed text.
 */
module Codec {
  import opened Wrappers

  function EscapeChar(c: char): string {
    if c == '"' || c == '\\' then ['\\', c] else [c]
  }

  function Escape(s: string): string {
    if s == [] then [] else EscapeChar(s[0]) + Escape(s[1..])
  }

  /** A string literal: the escaped text between double quotes. */
  function EncodeString(s: string): string {
    ['"'] + Escape(s) + ['"']
  }

  /** Reads escaped text up to the closing quote; gives the text and what follows the quote. */
  function ReadEscaped(s: string): (r: Option<(string, string)>)
    ensures r.Some? ==> |r.value.1| < |s|
    decreases |s|
  {
    if s == [] then None
    else if s[0] == '"' then Some(([], s[1..]))
    else if s[0] == '\\' then
      if |s| < 2 then None
      else match ReadEscaped(s[2..])
        case None => None
        case Some((t, rest)) => Some(([s[1]] + t, rest))
    else match ReadEscaped(s[1..])
      case None => None
      case Some((t, rest)) => Some(([s[0]] + t, rest))
  }

  /** Parses one string literal at the front of `s`. */
  function DecodeString(s: string): (r: Option<(string, string)>)
    ensures r.Some? ==> |r.value.1| < |s|
  {
    if s != [] && s[0] == '"' then ReadEscaped(s[1..]) else None
  }

  /** A list of strings: its literals one after another. */
  function EncodeList(xs: seq<string>): string {
    if xs == [] then [] else EncodeString(xs[0]) + EncodeList(xs[1..])
  }

  function DecodeList(s: string): Option<seq<string>>
    decreases |s|
  {
    if s == [] then Some([])
    else match DecodeString(s)
      case None => None
      case Some((x, rest)) =>
        match DecodeList(rest)
        case None => None
        case Some(xs) => Some([x] + xs)
  }

  lemma {:induction false} ReadEscapedRoundTrip(t: string, rest: string)
    ensures ReadEscaped(Escape(t) + ['"'] + rest) == Some((t, rest))
  {
    if t == [] {
      assert Escape(t) + ['"'] + rest == ['"'] + rest;
    } else {
      var tail := Escape(t[1..]) + ['"'] + rest;
      var s := Escape(t) + ['"'] + rest;
      assert s == EscapeChar(t[0]) + tail;
      ReadEscapedRoundTrip(t[1..], rest);
      if t[0] == '"' || t[0] == '\\' {
        assert s[2..] == tail;
      } else {
        assert s[1..] == tail;
      }
      assert [t[0]] + t[1..] == t;
    }
  }

  lemma {:induction false} DecodeStringRoundTrip(t: string, rest: string)
    ensures DecodeString(EncodeString(t) + rest) == Some((t, rest))
  {
    var s := EncodeString(t) + rest;
    assert s[1..] == Escape(t) + ['"'] + rest;
    ReadEscapedRoundTrip(t, rest);
  }

  /** Parsing what was serialised gives back the same list. */
  lemma {:induction false} DecodeEncodeList(xs: seq<string>)
    ensures DecodeList(EncodeList(xs)) == Some(xs)
  {
    if xs != [] {
      assert EncodeString(xs[0]) != [];
      DecodeStringRoundTrip(xs[0], EncodeList(xs[1..]));
      DecodeEncodeList(xs[1..]);
      assert [xs[0]] + xs[1..] == xs;
    }
  }
}
