/**
  The shell quoting that the transport hardening relies on: `shlex.join` and `shlex.split`
  in POSIX mode. Splitting undoes joining for every list of tokens.
*/
module Shlex {
  import opened Options
  import opened SshOptions

  predicate Safe(c: char) {
    'a' <= c <= 'z' || 'A' <= c <= 'Z' || '0' <= c <= '9' || c in {'_', '@', '%', '+', '=', ':', ',', '.', '/', '-'}
  }

  predicate AllSafe(x: string) { forall i | 0 <= i < |x| :: Safe(x[i]) }

  predicate Space(c: char) { c == ' ' || c == '\t' || c == '\r' || c == '\n' }

  // ---------------------------------------------------------------- quoting

  /** Inside single quotes a single quote is closed, double-quoted and reopened. */
  function Requote(x: string): string {
    if x == "" then "" else (if x[0] == '\'' then "'\"'\"'" else [x[0]]) + Requote(x[1..])
  }

  function Quote(x: string): string {
    if x == "" then "''" else if AllSafe(x) then x else "'" + Requote(x) + "'"
  }

  function Join(xs: seq<string>): string {
    if xs == [] then "" else if |xs| == 1 then Quote(xs[0]) else Quote(xs[0]) + " " + Join(xs[1..])
  }

  // --------------------------------------------------------------- splitting

  /** Where the reader is; an escape returns to the word or quote it stands in. */
  datatype Mode = Between | Word | Quoted(q: char) | EscapedWord | EscapedQuote(q: char)

  /** The rest of the text, read with the token so far; `None` where a quotation or escape is left open. */
  function Read(s: string, m: Mode, token: string, quoted: bool, done: seq<string>): Option<seq<string>> {
    if s == "" then
      match m
      case Between => Some(done)
      case Word => Some(if token != "" || quoted then done + [token] else done)
      case _ => None
    else
      var c, rest := s[0], s[1..];
      match m
      case Between =>
        if Space(c) then Read(rest, Between, token, quoted, done)
        else if c == '\\' then Read(rest, EscapedWord, token, quoted, done)
        else if c == '\'' || c == '"' then Read(rest, Quoted(c), token, true, done)
        else Read(rest, Word, token + [c], quoted, done)
      case Word =>
        if Space(c) then Read(rest, Between, "", false, if token != "" || quoted then done + [token] else done)
        else if c == '\\' then Read(rest, EscapedWord, token, quoted, done)
        else if c == '\'' || c == '"' then Read(rest, Quoted(c), token, true, done)
        else Read(rest, Word, token + [c], quoted, done)
      case Quoted(q) =>
        if c == q then Read(rest, Word, token, true, done)
        else if c == '\\' && q == '"' then Read(rest, EscapedQuote(q), token, true, done)
        else Read(rest, Quoted(q), token + [c], true, done)
      case EscapedWord => Read(rest, Word, token + [c], quoted, done)
      case EscapedQuote(q) =>
        // only the quote and the backslash itself can be escaped inside a quotation
        Read(rest, Quoted(q), token + (if c != '\\' && c != q then "\\" else "") + [c], true, done)
  }

  function Split(s: string): Option<seq<string>> { Read(s, Between, "", false, []) }

  // ------------------------------------------------------------- round trip

  lemma {:induction false} ReadSafe(x: string, rest: string, token: string, quoted: bool, done: seq<string>)
    requires AllSafe(x)
    ensures Read(x + rest, Word, token, quoted, done) == Read(rest, Word, token + x, quoted, done)
    decreases |x|
  {
    if x == "" {
      assert x + rest == rest && token + x == token;
    } else {
      assert (x + rest)[0] == x[0] && (x + rest)[1..] == x[1..] + rest;
      ReadSafe(x[1..], rest, token + [x[0]], quoted, done);
      assert token + [x[0]] + x[1..] == token + x;
    }
  }

  /** One character in front of the rest. */
  lemma ReadOne(c: char, rest: string)
    ensures ([c] + rest)[0] == c && ([c] + rest)[1..] == rest && [c] + rest != ""
  {
  }

  /** A requoted single quote adds exactly that character. */
  lemma ReadRequoted(rest: string, token: string, done: seq<string>)
    ensures Read("'\"'\"'" + rest, Quoted('\''), token, true, done) == Read(rest, Quoted('\''), token + "'", true, done)
  {
    var s1 := ['\''] + rest;
    var s2 := ['"'] + s1;
    var s3 := ['\''] + s2;
    var s4 := ['"'] + s3;
    var s5 := ['\''] + s4;
    assert "'\"'\"'" + rest == s5;
    ReadOne('\'', s4);
    ReadOne('"', s3);
    ReadOne('\'', s2);
    ReadOne('"', s1);
    ReadOne('\'', rest);
    assert Read(s5, Quoted('\''), token, true, done) == Read(s4, Word, token, true, done);
    assert Read(s4, Word, token, true, done) == Read(s3, Quoted('"'), token, true, done);
    assert Read(s3, Quoted('"'), token, true, done) == Read(s2, Quoted('"'), token + ['\''], true, done);
    assert Read(s2, Quoted('"'), token + ['\''], true, done) == Read(s1, Word, token + ['\''], true, done);
    assert Read(s1, Word, token + ['\''], true, done) == Read(rest, Quoted('\''), token + ['\''], true, done);
  }

  lemma {:induction false} ReadQuoted(x: string, rest: string, token: string, done: seq<string>)
    ensures Read(Requote(x) + rest, Quoted('\''), token, true, done) == Read(rest, Quoted('\''), token + x, true, done)
    decreases |x|
  {
    hide Read;
    if x == "" {
      assert Requote(x) + rest == rest && token + x == token;
    } else {
      var tail := Requote(x[1..]) + rest;
      assert token + [x[0]] + x[1..] == token + x;
      ReadQuoted(x[1..], rest, token + [x[0]], done);
      if x[0] == '\'' {
        assert Requote(x) + rest == "'\"'\"'" + tail;
        ReadRequoted(tail, token, done);
        assert token + "'" == token + [x[0]];
      } else {
        assert Requote(x) + rest == [x[0]] + tail;
        ReadPlainQuoted(x[0], tail, token, done);
      }
    }
  }

  lemma ReadPlainQuoted(c: char, rest: string, token: string, done: seq<string>)
    requires c != '\''
    ensures Read([c] + rest, Quoted('\''), token, true, done) == Read(rest, Quoted('\''), token + [c], true, done)
  {
    ReadOne(c, rest);
  }

  lemma ReadSafeToken(x: string, rest: string, done: seq<string>)
    requires x != "" && AllSafe(x)
    ensures Read(x + rest, Between, "", false, done) == Read(rest, Word, x, false, done)
  {
    var tail := x[1..] + rest;
    assert x + rest == [x[0]] + tail;
    ReadOne(x[0], tail);
    assert Safe(x[0]);
    assert Read([x[0]] + tail, Between, "", false, done) == Read(tail, Word, [x[0]], false, done) by { assert "" + [x[0]] == [x[0]]; }
    hide Read;
    ReadSafe(x[1..], rest, [x[0]], false, done);
    assert [x[0]] + x[1..] == x;
  }

  lemma ReadQuotedToken(x: string, rest: string, done: seq<string>)
    ensures Read("'" + Requote(x) + "'" + rest, Between, "", false, done) == Read(rest, Word, x, true, done)
  {
    hide Requote;
    var tail := ['\''] + rest;
    var body := Requote(x) + tail;
    assert "'" + Requote(x) + "'" + rest == ['\''] + body;
    ReadOne('\'', body);
    ReadOne('\'', rest);
    assert Read(['\''] + body, Between, "", false, done) == Read(body, Quoted('\''), "", true, done);
    assert Read(tail, Quoted('\''), x, true, done) == Read(rest, Word, x, true, done);
    hide Read;
    ReadQuoted(x, tail, "", done);
    assert "" + x == x;
  }

  /** Reading a quoted token yields it as the current token, empty ones included. */
  lemma ReadToken(x: string, rest: string, done: seq<string>)
    ensures Read(Quote(x) + rest, Between, "", false, done) == Read(rest, Word, x, !AllSafe(x) || x == "", done)
  {
    hide Read;
    if x != "" && AllSafe(x) {
      ReadSafeToken(x, rest, done);
    } else {
      ReadQuotedToken(x, rest, done);
      assert Requote("") == "" && "'" + "" + "'" == "''";
    }
  }

  lemma TokenEnds(x: string, quoted: bool, more: string, done: seq<string>)
    requires x != "" || quoted
    ensures Read("", Word, x, quoted, done) == Some(done + [x])
    ensures Read([' '] + more, Word, x, quoted, done) == Read(more, Between, "", false, done + [x])
  {
    ReadOne(' ', more);
  }

  /** `shlex.split` undoes `shlex.join`. */
  lemma {:induction false} ReadJoined(xs: seq<string>, done: seq<string>)
    ensures Read(Join(xs), Between, "", false, done) == Some(done + xs)
    decreases |xs|
  {
    hide Read, Quote, AllSafe, Requote;
    if xs == [] {
      assert done + xs == done;
      ReadNothing(done);
    } else {
      var x, more := xs[0], Join(xs[1..]);
      TokenEnds(x, !AllSafe(x) || x == "", more, done);
      if |xs| == 1 {
        ReadToken(x, "", done);
        assert Join(xs) == Quote(x) + "" && xs == [x];
      } else {
        JoinMore(xs);
        hide Join;
        ReadToken(x, [' '] + more, done);
        ReadJoined(xs[1..], done + [x]);
        assert done + [x] + xs[1..] == done + xs;
      }
    }
  }

  lemma JoinMore(xs: seq<string>)
    requires |xs| > 1
    ensures Join(xs) == Quote(xs[0]) + ([' '] + Join(xs[1..]))
  {
    hide Quote;
  }

  lemma ReadNothing(done: seq<string>)
    ensures Read("", Between, "", false, done) == Some(done)
  {
  }

  // ------------------------------------------------------------- a leading dash

  /** What has been read stays in front, and a token once begun keeps its first character. */
  lemma {:induction false} TokenKept(s: string, m: Mode, token: string, quoted: bool, done: seq<string>)
    requires Read(s, m, token, quoted, done).Some?
    ensures var ys := Read(s, m, token, quoted, done).value;
      && |done| <= |ys| && ys[..|done|] == done
      && (token != "" && m != Between ==> |ys| > |done| && ys[|done|] != "" && ys[|done|][0] == token[0])
    decreases |s|
  {
    if s != "" {
      var c, rest := s[0], s[1..];
      match m
      case Between =>
        if Space(c) { TokenKept(rest, Between, token, quoted, done); }
        else if c == '\\' { TokenKept(rest, EscapedWord, token, quoted, done); }
        else if c == '\'' || c == '"' { TokenKept(rest, Quoted(c), token, true, done); }
        else { TokenKept(rest, Word, token + [c], quoted, done); }
      case Word =>
        if Space(c) { TokenKept(rest, Between, "", false, if token != "" || quoted then done + [token] else done); }
        else if c == '\\' { TokenKept(rest, EscapedWord, token, quoted, done); }
        else if c == '\'' || c == '"' { TokenKept(rest, Quoted(c), token, true, done); }
        else { TokenKept(rest, Word, token + [c], quoted, done); }
      case Quoted(q) =>
        if c == q { TokenKept(rest, Word, token, true, done); }
        else if c == '\\' && q == '"' { TokenKept(rest, EscapedQuote(q), token, true, done); }
        else { TokenKept(rest, Quoted(q), token + [c], true, done); }
      case EscapedWord => TokenKept(rest, Word, token + [c], quoted, done);
      case EscapedQuote(q) => TokenKept(rest, Quoted(q), token + (if c != '\\' && c != q then "\\" else "") + [c], true, done);
    }
  }

  lemma DashStays(x: string)
    requires Split(x).Some? && Dashed(x)
    ensures Split(x).value != [] && Dashed(Split(x).value[0])
  {
    assert Split(x) == Read(x[1..], Word, "" + [x[0]], false, []);
    TokenKept(x[1..], Word, "" + [x[0]], false, []);
  }

  lemma SshStaysBare(xs: seq<string>)
    requires xs != [] && xs[0] == Ssh
    ensures Join(xs) != "" && Join(xs)[0] == '/'
  {
    assert AllSafe(Ssh);
  }

  function Posix(keyword: string -> string): Shell { Shell(Split, Join, keyword) }

  /** POSIX quoting satisfies everything the hardening proofs use, whatever reads the option keywords. */
  lemma PosixIsLawful(keyword: string -> string)
    ensures Lawful(Posix(keyword))
  {
    var sh := Posix(keyword);
    forall xs ensures sh.split(sh.join(xs)) == Some(xs) {
      ReadJoined(xs, []);
      assert [] + xs == xs;
    }
    forall x | sh.split(x).Some? && sh.split(x).value != [] && Dashed(x) ensures Dashed(sh.split(x).value[0]) { DashStays(x); }
    forall xs: seq<string> | xs != [] && xs[0] == Ssh ensures sh.join(xs) != "" && sh.join(xs)[0] == '/' { SshStaysBare(xs); }
  }
}
