/** Matching of Lua patterns, as far as the command gateway uses them: literals, greedy repetitions of a
    character class with backtracking, an optional minus sign, and captures. */
module LuaPatterns {
  import opened FlightVarTypes
  import Numerals

  datatype Class =
    | Decimals      // %d
    | Hexadecimals  // %x
    | Letters       // %a
    | NameChars     // [%a%d_]

  predicate IsLetter(c: char) { 'a' <= c <= 'z' || 'A' <= c <= 'Z' }

  predicate In(c: char, cls: Class) {
    match cls
    case Decimals => '0' <= c <= '9'
    case Hexadecimals => Numerals.IsDigit(c, 16)
    case Letters => IsLetter(c)
    case NameChars => IsLetter(c) || '0' <= c <= '9' || c == '_'
  }

  predicate AllIn(s: string, cls: Class) {
    forall i :: 0 <= i < |s| ==> In(s[i], cls)
  }

  datatype Item =
    | Literal(text: string)
    | Repeat(cls: Class)
    | OptionalMinus
    | Open   // begins a capture
    | Close  // ends it

  type Pattern = seq<Item>

  /** The length of the longest beginning of s that is in the class. */
  function RunLength(s: string, cls: Class): (n: nat)
    ensures n <= |s| && AllIn(s[..n], cls) && (n < |s| ==> !In(s[n], cls))
  {
    if s == [] || !In(s[0], cls) then 0 else 1 + RunLength(s[1..], cls)
  }

  /** Matches the pattern at the beginning of s. `open` is the text of the capture begun last and `done`
      those completed; the result are all captures. */
  function MatchHere(p: Pattern, s: string, open: string, done: seq<string>): Option<seq<string>>
    decreases |p|, 0
  {
    if p == [] then Some(done)
    else
      match p[0]
      case Literal(t) => if t <= s then MatchHere(p[1..], s[|t|..], open + t, done) else None
      case Repeat(cls) => Longest(p[1..], s, RunLength(s, cls), open, done)
      case OptionalMinus =>
        if s != [] && s[0] == '-' then
          var with_ := MatchHere(p[1..], s[1..], open + "-", done);
          if with_.Some? then with_ else MatchHere(p[1..], s, open, done)
        else
          MatchHere(p[1..], s, open, done)
      case Open => MatchHere(p[1..], s, [], done)
      case Close => MatchHere(p[1..], s, open, done + [open])
  }

  /** Tries repetitions of n down to one characters. */
  function Longest(p: Pattern, s: string, n: nat, open: string, done: seq<string>): Option<seq<string>>
    requires n <= |s|
    decreases |p|, n + 1
  {
    if n == 0 then None
    else
      var r := MatchHere(p, s[n..], open + s[..n], done);
      if r.Some? then r else Longest(p, s, n - 1, open, done)
  }

  /** The captures of the first place where the pattern matches. */
  function Find(p: Pattern, s: string): Option<seq<string>>
    decreases |s|
  {
    var r := MatchHere(p, s, [], []);
    if r.Some? || s == [] then r else Find(p, s[1..])
  }

  lemma {:induction false} RunIs(word: string, rest: string, cls: Class)
    requires AllIn(word, cls) && (rest == [] || !In(rest[0], cls))
    ensures RunLength(word + rest, cls) == |word|
  {
    hide In;
    if word == [] {
      assert word + rest == rest;
    } else {
      assert (word + rest)[1..] == word[1..] + rest;
      RunIs(word[1..], rest, cls);
    }
  }

  /** A repetition takes a whole run if what follows matches the rest of the pattern. */
  lemma RepeatTakes(p: Pattern, cls: Class, word: string, rest: string, open: string, done: seq<string>)
    requires p != [] && p[0] == Repeat(cls) && word != [] && AllIn(word, cls) && (rest == [] || !In(rest[0], cls))
    requires MatchHere(p[1..], rest, open + word, done).Some?
    ensures MatchHere(p, word + rest, open, done) == MatchHere(p[1..], rest, open + word, done)
  {
    hide In;
    RunIs(word, rest, cls);
    assert (word + rest)[|word|..] == rest && (word + rest)[..|word|] == word;
  }

  lemma LiteralTakes(p: Pattern, t: string, rest: string, open: string, done: seq<string>)
    requires p != [] && p[0] == Literal(t)
    ensures MatchHere(p, t + rest, open, done) == MatchHere(p[1..], rest, open + t, done)
  {
    assert (t + rest)[|t|..] == rest;
  }

  /** A pattern that begins with a captured keyword and a space matches only where they are. */
  predicate BeginsWith(p: Pattern, keyword: string) {
    |p| >= 4 && p[..4] == [Open, Literal(keyword), Close, Literal(" ")]
  }

  lemma KeywordNeeded(p: Pattern, keyword: string, s: string)
    requires BeginsWith(p, keyword) && MatchHere(p, s, [], []).Some?
    ensures keyword + " " <= s
  {
    assert p[0] == Open && p[1] == Literal(keyword) && p[2] == Close && p[3] == Literal(" ");
    var p1, p2, p3 := p[1..], p[1..][1..], p[1..][1..][1..];
    assert p1[0] == p[1] && p2[0] == p[2] && p3[0] == p[3];
    assert MatchHere(p1, s, [], []).Some?;
    var rest := s[|keyword|..];
    assert MatchHere(p2, rest, [] + keyword, []).Some?;
    assert MatchHere(p3, rest, [] + keyword, [] + [[] + keyword]).Some?;
    assert s == keyword + rest && " " <= rest;
  }

  lemma KeywordTaken(p: Pattern, keyword: string, rest: string)
    requires BeginsWith(p, keyword)
    ensures MatchHere(p, keyword + " " + rest, [], []) == MatchHere(p[4..], rest, keyword + " ", [keyword])
  {
    assert p[0] == Open && p[1] == Literal(keyword) && p[2] == Close && p[3] == Literal(" ");
    assert p[1..][0] == p[1] && p[1..][1..][0] == p[2] && p[1..][1..][1..][0] == p[3];
    assert p[1..][1..][1..][1..] == p[4..];
    assert keyword + " " + rest == keyword + (" " + rest);
    LiteralTakes(p[1..], keyword, " " + rest, [], []);
    assert [] + keyword == keyword && [] + [keyword] == [keyword];
    LiteralTakes(p[1..][1..][1..], " ", rest, keyword, [keyword]);
  }

  lemma {:induction false} NotFound(p: Pattern, keyword: string, s: string)
    requires BeginsWith(p, keyword)
    requires forall i :: 0 <= i <= |s| ==> !(keyword + " " <= s[i..])
    ensures Find(p, s).None?
    decreases |s|
  {
    hide MatchHere, BeginsWith;
    assert s[0..] == s;
    if MatchHere(p, s, [], []).Some? {
      KeywordNeeded(p, keyword, s);
      assert false;
    } else if s != [] {
      assert forall i :: 0 <= i <= |s[1..]| ==> s[1..][i..] == s[i + 1..];
      NotFound(p, keyword, s[1..]);
    }
  }
}
