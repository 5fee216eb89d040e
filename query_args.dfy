/**
 * How the web framework turns a requested URL into `request.args`, the
 * parameters `index` reads back: the query is the text after the first `?`
 * and before any `#` fragment; it is cut at every `&`; each non-empty piece is
 * cut at its first `=` (a piece without one is a key with an empty value);
 * and keys and values are unquoted (`+` is a space, `%HH` is the character
 * with that code). `args.get(key)` answers with the first pair for `key`.
 */
module QueryArgs {
  import opened Optional
  import opened Text

  predicate IsHexDigit(c: char) {
    '0' <= c <= '9' || 'a' <= c <= 'f' || 'A' <= c <= 'F'
  }

  function HexValue(c: char): (v: nat)
    requires IsHexDigit(c)
    ensures v < 16
  {
    if '0' <= c <= '9' then c as int - '0' as int
    else if 'a' <= c <= 'f' then c as int - 'a' as int + 10
    else c as int - 'A' as int + 10
  }

  /** `unquote_plus`: `+` becomes a space, `%HH` the character with code HH, all else is kept. */
  function Unquote(s: string): (r: string)
    ensures |r| <= |s|
    ensures '+' !in s && '%' !in s ==> r == s
    decreases |s|
  {
    if s == [] then []
    else if s[0] == '+' then [' '] + Unquote(s[1..])
    else if s[0] == '%' && |s| >= 3 && IsHexDigit(s[1]) && IsHexDigit(s[2]) then
      [(16 * HexValue(s[1]) + HexValue(s[2])) as char] + Unquote(s[3..])
    else [s[0]] + Unquote(s[1..])
  }

  /** What reaches the server as the query: after the first `?`, with any `#` fragment gone. */
  function QueryString(url: string): (q: string)
    ensures '#' !in q
    ensures '?' !in url ==> q == []
  {
    var (sent, _, _) := Partition(url, '#');
    var (_, found, query) := Partition(sent, '?');
    if found then query else []
  }

  /** One `key=value` piece, cut at its first `=`; a piece without one is a key with an empty value. */
  function ParsePair(piece: string): (r: (string, string))
    ensures '=' !in piece ==> r == (Unquote(piece), [])
  {
    var (key, _, value) := Partition(piece, '=');
    (Unquote(key), Unquote(value))
  }

  /** The pairs of the non-empty pieces, in order. */
  function ParsePieces(pieces: seq<string>): (args: seq<(string, string)>)
    ensures |args| <= |pieces|
  {
    if pieces == [] then []
    else if pieces[0] == [] then ParsePieces(pieces[1..])
    else [ParsePair(pieces[0])] + ParsePieces(pieces[1..])
  }

  /** `parse_qsl(query, keep_blank_values=True)`. */
  function ParseQuery(query: string): (args: seq<(string, string)>)
    ensures query == [] ==> args == []
    ensures query != [] && '&' !in query ==> args == [ParsePair(query)]
  {
    var pieces := Split(query, '&');
    assert query == [] || '&' !in query ==> pieces == [query] by {
      if query == [] || '&' !in query { PartitionAbsent(query, '&'); }
    }
    ParsePieces(pieces)
  }

  /** `args.get(key)`: the value of the first pair for `key`, or None. */
  function Lookup(args: seq<(string, string)>, key: string): (r: Option<string>)
    ensures r.None? <==> forall i :: 0 <= i < |args| ==> args[i].0 != key
    ensures r.Some? ==> exists i :: 0 <= i < |args| && args[i] == (key, r.value)
                                    && forall j :: 0 <= j < i ==> args[j].0 != key
  {
    if args == [] then None
    else if args[0].0 == key then Some(args[0].1)
    else
      var r := Lookup(args[1..], key);
      assert r.Some? ==> exists i :: 0 <= i < |args[1..]| && args[1..][i] == (key, r.value)
                                      && forall j :: 0 <= j < i ==> args[1..][j].0 != key;
      assert r.Some? ==> exists i :: 0 <= i < |args| && args[i] == (key, r.value)
                                      && forall j :: 0 <= j < i ==> args[j].0 != key by {
        if r.Some? {
          var i :| 0 <= i < |args[1..]| && args[1..][i] == (key, r.value)
                   && forall j :: 0 <= j < i ==> args[1..][j].0 != key;
          assert args[i + 1] == (key, r.value);
          assert forall j :: 0 <= j < i + 1 ==> args[j].0 != key by {
            forall j | 0 <= j < i + 1 ensures args[j].0 != key {
              if j > 0 { assert args[j] == args[1..][j - 1]; }
            }
          }
        }
      }
      r
  }

  /** `request.args.get(key)` for the URL a browser requested. */
  function ArgOf(url: string, key: string): (r: Option<string>)
    ensures '?' !in url ==> r == None
  {
    Lookup(ParseQuery(QueryString(url)), key)
  }

  /** A pair cut at the first `=`: a key free of `=` keeps the rest, `=` included, as its value. */
  lemma {:induction false} ParsePairAt(key: string, value: string)
    requires '=' !in key && '+' !in key && '%' !in key
    ensures ParsePair(key + "=" + value) == (key, Unquote(value))
  {
    PartitionFirst(key, '=', value);
  }

  /** A key the parser reads back as written. */
  predicate PlainKey(k: string) {
    k != [] && '=' !in k && '&' !in k && '+' !in k && '%' !in k
  }

  /** Pairs whose keys are plain and whose values hold no `&`. */
  predicate Writable(pairs: seq<(string, string)>) {
    forall i :: 0 <= i < |pairs| ==> PlainKey(pairs[i].0) && '&' !in pairs[i].1
  }

  /** `key=value` for each pair, unescaped. */
  function Pieces(pairs: seq<(string, string)>): (pieces: seq<string>)
    ensures |pieces| == |pairs|
    ensures forall i :: 0 <= i < |pairs| ==> pieces[i] == pairs[i].0 + "=" + pairs[i].1
  {
    if pairs == [] then [] else [pairs[0].0 + "=" + pairs[0].1] + Pieces(pairs[1..])
  }

  /** The pairs as the parser reports them: each value unquoted. */
  function Unquoted(pairs: seq<(string, string)>): (r: seq<(string, string)>)
    ensures |r| == |pairs|
    ensures forall i :: 0 <= i < |pairs| ==> r[i] == (pairs[i].0, Unquote(pairs[i].1))
  {
    if pairs == [] then [] else [(pairs[0].0, Unquote(pairs[0].1))] + Unquoted(pairs[1..])
  }

  /** Parsing a query written from pairs, unescaped, recovers them up to unquoting of the values. */
  lemma ParseWritten(pairs: seq<(string, string)>)
    requires |pairs| >= 1 && Writable(pairs)
    ensures ParseQuery(Join(Pieces(pairs), '&')) == Unquoted(pairs)
  {
    var pieces := Pieces(pairs);
    forall i | 0 <= i < |pieces| ensures '&' !in pieces[i] {
      assert pieces[i] == pairs[i].0 + "=" + pairs[i].1;
    }
    SplitJoin(pieces, '&');
    ParsePiecesWritten(pairs);
  }

  lemma {:induction false} ParsePiecesWritten(pairs: seq<(string, string)>)
    requires Writable(pairs)
    ensures ParsePieces(Pieces(pairs)) == Unquoted(pairs)
  {
    if pairs != [] {
      var pieces := Pieces(pairs);
      assert pieces[1..] == Pieces(pairs[1..]);
      assert pieces[0] != [];
      ParsePairAt(pairs[0].0, pairs[0].1);
      ParsePiecesWritten(pairs[1..]);
      assert Unquoted(pairs) == [(pairs[0].0, Unquote(pairs[0].1))] + Unquoted(pairs[1..]);
    }
  }

  /** A `+` between two plain texts is read as a space. */
  lemma {:induction false} UnquotePlus(a: string, b: string)
    requires '+' !in a && '%' !in a && '+' !in b && '%' !in b
    ensures Unquote(a + "+" + b) == a + " " + b
  {
    if a == [] {
      assert a + "+" + b == ['+'] + b;
      assert (['+'] + b)[1..] == b;
    } else {
      var s := a + "+" + b;
      assert s[0] == a[0] && s[1..] == a[1..] + "+" + b;
      UnquotePlus(a[1..], b);
      assert a + " " + b == [a[0]] + (a[1..] + " " + b);
    }
  }

  /** A valid `%HH` escape after plain text is read as the one character with code HH. */
  lemma UnquoteEscape(a: string, h1: char, h2: char, b: string)
    requires '+' !in a && '%' !in a && IsHexDigit(h1) && IsHexDigit(h2)
    ensures Unquote(a + ['%', h1, h2] + b) == a + [(16 * HexValue(h1) + HexValue(h2)) as char] + Unquote(b)
  {
    var c := (16 * HexValue(h1) + HexValue(h2)) as char;
    assert a + ['%', h1, h2] + b == a + (['%', h1, h2] + b);
    UnquotePlainPrefix(a, ['%', h1, h2] + b);
    UnquoteLeadingEscape(h1, h2, b);
    assert a + ([c] + Unquote(b)) == a + [c] + Unquote(b);
  }

  /** Plain text in front is kept as it is, whatever follows. */
  lemma {:induction false} UnquotePlainPrefix(a: string, t: string)
    requires '+' !in a && '%' !in a
    ensures Unquote(a + t) == a + Unquote(t)
  {
    if a == [] {
      assert a + t == t;
    } else {
      UnquotePlainPrefix(a[1..], t);
      UnquotePlainStep(a[0], a[1..], t);
      assert [a[0]] + a[1..] == a;
    }
  }

  /** One plain character more in front of a prefix already known to be kept. */
  lemma UnquotePlainStep(x: char, rest: string, t: string)
    requires x != '+' && x != '%' && Unquote(rest + t) == rest + Unquote(t)
    ensures Unquote([x] + rest + t) == [x] + rest + Unquote(t)
  {
    assert [x] + rest + t == [x] + (rest + t);
    UnquoteLeadingPlain(x, rest + t);
  }

  /** An escape at the front is read as one character. */
  lemma UnquoteLeadingEscape(h1: char, h2: char, b: string)
    requires IsHexDigit(h1) && IsHexDigit(h2)
    ensures Unquote(['%', h1, h2] + b) == [(16 * HexValue(h1) + HexValue(h2)) as char] + Unquote(b)
  {
    var s := ['%', h1, h2] + b;
    assert s[0] == '%' && s[1] == h1 && s[2] == h2 && s[3..] == b;
  }

  /** A character other than `+` and `%` at the front is kept as it is. */
  lemma UnquoteLeadingPlain(x: char, t: string)
    requires x != '+' && x != '%'
    ensures Unquote([x] + t) == [x] + Unquote(t)
  {
    assert ([x] + t)[0] == x && ([x] + t)[1..] == t;
  }
}
