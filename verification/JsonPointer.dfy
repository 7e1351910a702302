/** JSON Pointer (RFC 6901): escaping, rendering and parsing, with decimal array indices. */
module JsonPointer {
  import opened Wrappers

  // ---------- reference tokens (sections 3 and 4 of RFC 6901) ----------

  /** `str.replace` of one character. */
  function Replace(s: string, c: char, with: string): string {
    if s == [] then [] else (if s[0] == c then with else [s[0]]) + Replace(s[1..], c, with)
  }

  /** The migration tool's `pointer`: first every `~`, then every `/`. */
  function Escape(token: string): string {
    Replace(Replace(token, '~', "~0"), '/', "~1")
  }

  /** Escapes are read from left to right; a `~` that introduces none is an error. */
  function Unescape(s: string): Option<string>
    decreases |s|
  {
    if s == [] then Some([])
    else if s[0] != '~' then
      var rest := Unescape(s[1..]);
      if rest.None? then None else Some([s[0]] + rest.value)
    else if |s| == 1 || s[1] !in "01" then None
    else
      var rest := Unescape(s[2..]);
      if rest.None? then None else Some([if s[1] == '0' then '~' else '/'] + rest.value)
  }

  function EscapeChar(c: char): string {
    if c == '~' then "~0" else if c == '/' then "~1" else [c]
  }

  lemma {:induction false} ReplaceConcat(a: string, b: string, c: char, with: string)
    ensures Replace(a + b, c, with) == Replace(a, c, with) + Replace(b, c, with)
  {
    if a == [] {
      assert a + b == b;
    } else {
      assert (a + b)[1..] == a[1..] + b;
      ReplaceConcat(a[1..], b, c, with);
    }
  }

  /** The two passes amount to escaping each character on its own. */
  lemma EscapeCons(c: char, rest: string)
    ensures Escape([c] + rest) == EscapeChar(c) + Escape(rest)
  {
    var first := if c == '~' then "~0" else [c];
    assert ([c] + rest)[1..] == rest;
    ReplaceConcat(first, Replace(rest, '~', "~0"), '/', "~1");
    assert Replace(first, '/', "~1") == EscapeChar(c) by {
      assert first[1..] == if c == '~' then "0" else [];
      if c == '~' { assert "0"[1..] == []; }
    }
  }

  /** Escaping round-trips and leaves no separator, for every token. */
  lemma {:induction false} EscapeRoundTrip(token: string)
    ensures Unescape(Escape(token)) == Some(token)
    ensures '/' !in Escape(token)
  {
    if token != [] {
      EscapeRoundTrip(token[1..]);
      assert token == [token[0]] + token[1..];
      EscapeCons(token[0], token[1..]);
      var head, rest := EscapeChar(token[0]), Escape(token[1..]);
      assert |head| == 2 ==> (head + rest)[2..] == rest;
      assert |head| == 1 ==> (head + rest)[1..] == rest;
    }
  }

  // ---------- whole pointers ----------

  function Render(tokens: seq<string>): string {
    if tokens == [] then [] else "/" + Escape(tokens[0]) + Render(tokens[1..])
  }

  /** The length of the leading part without a separator. */
  function TokenLength(s: string): (n: nat)
    ensures n <= |s| && '/' !in s[..n] && (n < |s| ==> s[n] == '/')
  {
    if s == [] || s[0] == '/' then 0 else
      var n := TokenLength(s[1..]);
      assert s[..n + 1] == [s[0]] + s[1..][..n];
      1 + n
  }

  function Parse(path: string): Option<seq<string>>
    decreases |path|
  {
    if path == [] then Some([])
    else if path[0] != '/' then None
    else
      var n := TokenLength(path[1..]);
      var token, rest := Unescape(path[1..n + 1]), Parse(path[n + 1..]);
      if token.None? || rest.None? then None else Some([token.value] + rest.value)
  }

  lemma {:induction false} TokenLengthIs(token: string, rest: string)
    requires '/' !in token && (rest == [] || rest[0] == '/')
    ensures TokenLength(token + rest) == |token|
  {
    if token == [] {
      assert token + rest == rest;
    } else {
      assert (token + rest)[1..] == token[1..] + rest;
      TokenLengthIs(token[1..], rest);
    }
  }

  lemma ParseCons(token: string, rest: string)
    requires rest == [] || rest[0] == '/'
    requires Parse(rest).Some?
    ensures Parse("/" + Escape(token) + rest) == Some([token] + Parse(rest).value)
  {
    hide Escape, Unescape, Parse, TokenLength;
    EscapeRoundTrip(token);
    ParseToken(Escape(token), rest);
  }

  /** The leading token of a path is what stands before the next separator. */
  lemma ParseToken(escaped: string, rest: string)
    requires '/' !in escaped && (rest == [] || rest[0] == '/')
    ensures Parse("/" + escaped + rest) ==
      if Unescape(escaped).None? || Parse(rest).None? then None else Some([Unescape(escaped).value] + Parse(rest).value)
  {
    hide Unescape, TokenLength;
    var path := "/" + escaped + rest;
    TokenLengthIs(escaped, rest);
    var n := |escaped|;
    assert path[1..] == escaped + rest;
    assert path[1..n + 1] == escaped && path[n + 1..] == rest;
  }

  lemma {:induction false} ParseRender(tokens: seq<string>)
    ensures Parse(Render(tokens)) == Some(tokens)
    ensures Render(tokens) == [] || Render(tokens)[0] == '/'
  {
    if tokens != [] {
      ParseRender(tokens[1..]);
      ParseCons(tokens[0], Render(tokens[1..]));
      assert tokens == [tokens[0]] + tokens[1..];
    }
  }

  // ---------- array indices ----------

  function Digit(n: nat): char
    requires n < 10
  {
    '0' + n as char
  }

  function Decimal(n: nat): string {
    if n < 10 then [Digit(n)] else Decimal(n / 10) + [Digit(n % 10)]
  }

  function DigitValue(c: char): Option<nat> {
    if '0' <= c <= '9' then Some((c - '0') as nat) else None
  }

  function Digits(s: string): Option<nat> {
    if s == [] then Some(0)
    else
      var high, low := Digits(s[..|s| - 1]), DigitValue(s[|s| - 1]);
      if high.None? || low.None? then None else Some(10 * high.value + low.value)
  }

  /** Digits without a leading zero. */
  function ParseIndex(s: string): Option<nat> {
    if s == [] || (s[0] == '0' && |s| > 1) then None else Digits(s)
  }

  lemma {:induction false} IndexRoundTrip(n: nat)
    ensures ParseIndex(Decimal(n)) == Some(n) && Digits(Decimal(n)) == Some(n)
    ensures Decimal(n) != [] && (Decimal(n)[0] == '0' <==> n == 0) && (n < 10 <==> |Decimal(n)| == 1)
  {
    var s := Decimal(n);
    if n < 10 {
      assert s[..0] == [] && Digits([]) == Some(0);
      assert DigitValue(Digit(n)) == Some(n);
    } else {
      assert DigitValue(Digit(n % 10)) == Some(n % 10);
      IndexRoundTrip(n / 10);
      assert s[..|s| - 1] == Decimal(n / 10);
    }
  }

  // ---------- the standard ----------

  /** Two of the pointers in section 5 of RFC 6901, and an index of two digits. */
  lemma StandardExamples()
    ensures Escape("a/b") == "a~1b" && Escape("m~n") == "m~0n" && Decimal(10) == "10"
  {
    EscapesOne('a', '/', 'b');
    EscapesOne('m', '~', 'n');
    hide Escape;
    assert "a/b" == ['a', '/', 'b'] && "m~n" == ['m', '~', 'n'];
    assert Decimal(1) == "1";
  }

  lemma EscapesOne(a: char, special: char, b: char)
    requires special == '/' || special == '~'
    requires a !in "/~" && b !in "/~"
    ensures Escape([a, special, b]) == [a, '~', if special == '/' then '1' else '0', b]
  {
    EscapeEmpty();
    EscapeCons(b, []);
    EscapeCons(special, [b]);
    EscapeCons(a, [special, b]);
    hide Escape;
    assert [b] == [b] + [] && [special, b] == [special] + [b] && [a, special, b] == [a] + [special, b];
  }

  lemma EscapeEmpty()
    ensures Escape("") == ""
  {
  }
}
