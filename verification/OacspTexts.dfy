/** The OACSP protocol as text: what a pattern means, what the lines look like, and who is told of a change
    after any observations. */
module OacspTexts {
  import opened FlightVarTypes
  import opened LuaPatterns
  import opened OacspCommands
  import opened OacspEvents
  import opened OacspPeers
  import Numerals

  // ----- what a pattern means

  /** The texts an item may stand for. */
  predicate Fits(item: Item, piece: string) {
    match item
    case Literal(t) => piece == t
    case Repeat(cls) => piece != [] && AllIn(piece, cls)
    case OptionalMinus => piece == [] || piece == "-"
    case _ => piece == []
  }

  /** The text begins with pieces that the items stand for, one each. */
  predicate Splits(p: Pattern, s: string, pieces: seq<string>)
    decreases |p|
  {
    if p == [] then pieces == []
    else
      && pieces != [] && Fits(p[0], pieces[0]) && pieces[0] <= s
      && Splits(p[1..], s[|pieces[0]|..], pieces[1..])
  }

  /** What is captured: the pieces between the beginnings and ends of captures. */
  function Captured(p: Pattern, pieces: seq<string>, open: string): seq<string>
    requires |p| == |pieces|
  {
    if p == [] then []
    else if p[0] == Open then Captured(p[1..], pieces[1..], [])
    else if p[0] == Close then [open] + Captured(p[1..], pieces[1..], open)
    else Captured(p[1..], pieces[1..], open + pieces[0])
  }

  lemma {:induction false} SplitsAll(p: Pattern, s: string, pieces: seq<string>)
    requires Splits(p, s, pieces)
    ensures |pieces| == |p|
    decreases |p|
  {
    if p != [] {
      SplitsAll(p[1..], s[|pieces[0]|..], pieces[1..]);
    }
  }

  ghost predicate IsMatch(p: Pattern, s: string, open: string, captures: seq<string>) {
    exists pieces :: Splits(p, s, pieces) && |pieces| == |p| && captures == Captured(p, pieces, open)
  }

  lemma First(p: Pattern, s: string, open: string, piece: string, captures: seq<string>)
    requires p != [] && Fits(p[0], piece) && piece <= s
    requires IsMatch(p[1..], s[|piece|..], if p[0] == Open then [] else open + piece, captures)
    ensures IsMatch(p, s, open, if p[0] == Close then [open] + captures else captures)
  {
    var next := if p[0] == Open then [] else open + piece;
    var pieces :| Splits(p[1..], s[|piece|..], pieces) && |pieces| == |p[1..]|
                  && captures == Captured(p[1..], pieces, next);
    var all := [piece] + pieces;
    assert all[1..] == pieces && all[0] == piece;
    assert Splits(p, s, all);
    assert p[0] == Close ==> open + piece == open;
  }

  ghost predicate IsRight(p: Pattern, s: string, open: string, done: seq<string>, found: seq<string>) {
    exists captures :: found == done + captures && IsMatch(p, s, open, captures)
  }

  /** What is found is a match: the text does begin with pieces that the items stand for. */
  lemma {:induction false} MatchIsRight(p: Pattern, s: string, open: string, done: seq<string>)
    requires MatchHere(p, s, open, done).Some?
    ensures IsRight(p, s, open, done, MatchHere(p, s, open, done).value)
    decreases |p|, 0, 0
  {
    assert open + [] == open;
    if p == [] {
      assert Splits(p, s, []) && Captured(p, [], open) == [];
      assert IsMatch(p, s, open, []);
      assert done == done + [];
    } else {
      match p[0]
      case Literal(t) => Step(p, s, open, done, t);
      case Repeat(cls) => LongestIsRight(p, s, RunLength(s, cls), open, done);
      case OptionalMinus =>
        if s != [] && s[0] == '-' && MatchHere(p[1..], s[1..], open + "-", done).Some? {
          Step(p, s, open, done, "-");
        } else {
          Step(p, s, open, done, []);
        }
      case _ => Step(p, s, open, done, []);
    }
  }

  /** What the rest of the pattern matches after a piece. */
  function Next(p: Pattern, s: string, open: string, done: seq<string>, piece: string): Option<seq<string>>
    requires p != [] && piece <= s
  {
    MatchHere(p[1..], s[|piece|..], if p[0] == Open then [] else open + piece,
      if p[0] == Close then done + [open] else done)
  }

  /** One item stands for a piece and the rest of the pattern matches after it. */
  lemma {:induction false} Step(p: Pattern, s: string, open: string, done: seq<string>, piece: string)
    requires p != [] && Fits(p[0], piece) && piece <= s && Next(p, s, open, done, piece).Some?
    ensures IsRight(p, s, open, done, Next(p, s, open, done, piece).value)
    decreases |p| - 1, 1, 0
  {
    hide IsMatch, Fits, MatchHere;
    var open' := if p[0] == Open then [] else open + piece;
    var done' := if p[0] == Close then done + [open] else done;
    var rest, r := s[|piece|..], Next(p, s, open, done, piece).value;
    MatchIsRight(p[1..], rest, open', done');
    var captures :| r == done' + captures && IsMatch(p[1..], rest, open', captures);
    First(p, s, open, piece, captures);
    Joins(done, [open], captures);
    RightFrom(p, s, open, done, r, if p[0] == Close then [open] + captures else captures);
  }

  lemma Joins(a: seq<string>, b: seq<string>, c: seq<string>)
    ensures a + b + c == a + (b + c)
  {
  }

  lemma RightFrom(p: Pattern, s: string, open: string, done: seq<string>, found: seq<string>, captures: seq<string>)
    requires found == done + captures && IsMatch(p, s, open, captures)
    ensures IsRight(p, s, open, done, found)
  {
  }

  lemma {:induction false} LongestIsRight(p: Pattern, s: string, n: nat, open: string, done: seq<string>)
    requires p != [] && p[0].Repeat? && n <= |s| && AllIn(s[..n], p[0].cls)
    requires Longest(p[1..], s, n, open, done).Some?
    ensures IsRight(p, s, open, done, Longest(p[1..], s, n, open, done).value)
    decreases |p| - 1, 2, n
  {
    hide IsRight, In;
    if MatchHere(p[1..], s[n..], open + s[..n], done).Some? {
      Step(p, s, open, done, s[..n]);
    } else {
      assert s[..n - 1] == s[..n][..n - 1];
      LongestIsRight(p, s, n - 1, open, done);
    }
  }

  /** Nothing is missed: wherever the text can be split into such pieces, a match is found. */
  lemma {:induction false} MatchIsFound(p: Pattern, s: string, open: string, done: seq<string>, pieces: seq<string>)
    requires Splits(p, s, pieces)
    ensures MatchHere(p, s, open, done).Some?
    decreases |p|
  {
    if p != [] {
      var rest, tail := s[|pieces[0]|..], pieces[1..];
      assert pieces[0] == [] ==> rest == s;
      match p[0]
      case Literal(t) => MatchIsFound(p[1..], rest, open + t, done, tail);
      case Repeat(cls) =>
        var n := |pieces[0]|;
        assert s[..n] == pieces[0];
        MatchIsFound(p[1..], rest, open + s[..n], done, tail);
        RunIsLongest(s, cls, n);
        LongestFinds(p[1..], s, RunLength(s, cls), n, open, done);
      case OptionalMinus =>
        MatchIsFound(p[1..], rest, if pieces[0] == [] then open else open + "-", done, tail);
      case Open => MatchIsFound(p[1..], rest, [], done, tail);
      case Close => MatchIsFound(p[1..], rest, open, done + [open], tail);
    }
  }

  lemma RunIsLongest(s: string, cls: Class, n: nat)
    requires n <= |s| && AllIn(s[..n], cls)
    ensures n <= RunLength(s, cls)
  {
    var m := RunLength(s, cls);
    assert forall i :: 0 <= i < n ==> s[i] == s[..n][i];
  }

  lemma {:induction false} LongestFinds(p: Pattern, s: string, m: nat, n: nat, open: string, done: seq<string>)
    requires 0 < n <= m <= |s| && MatchHere(p, s[n..], open + s[..n], done).Some?
    ensures Longest(p, s, m, open, done).Some?
  {
    hide MatchHere;
    if n < m {
      LongestFinds(p, s, m - 1, n, open, done);
    }
  }

  ghost predicate SplitsAt(p: Pattern, s: string, i: nat) {
    i <= |s| && exists pieces :: Splits(p, s[i..], pieces)
  }

  /** Captured at a place, and at none before it. */
  ghost predicate FirstAt(p: Pattern, s: string, i: nat, found: seq<string>) {
    i <= |s| && IsMatch(p, s[i..], [], found) && forall j: nat :: j < i ==> !SplitsAt(p, s, j)
  }

  /** A pattern matches a text exactly when the text, from some place on, can be split into pieces that the
      items stand for. The first such place is taken, and what is captured there are the pieces between the
      beginnings and ends of captures. */
  lemma {:induction false} FindsExactly(p: Pattern, s: string)
    ensures Find(p, s).Some? <==> exists i: nat :: SplitsAt(p, s, i)
    ensures Find(p, s).Some? ==> exists i: nat :: FirstAt(p, s, i, Find(p, s).value)
    decreases |s|
  {
    hide MatchHere, Splits, Captured, SplitsAt;
    if MatchHere(p, s, [], []).Some? {
      FoundHere(p, s);
    } else {
      NotHere(p, s);
      if s == [] {
        NowhereElse(p, s);
      } else {
        FindsExactly(p, s[1..]);
        forall i: nat ensures SplitsAt(p, s[1..], i) == SplitsAt(p, s, i + 1) {
          OneOn(p, s, i);
        }
        assert forall i: nat :: i > 0 ==> SplitsAt(p, s, i) == SplitsAt(p, s[1..], i - 1);
        if Find(p, s).Some? {
          var i: nat :| FirstAt(p, s[1..], i, Find(p, s).value);
          assert s[1..][i..] == s[i + 1..];
          assert FirstAt(p, s, i + 1, Find(p, s).value);
        }
      }
    }
  }

  lemma NowhereElse(p: Pattern, s: string)
    requires s == []
    ensures forall i: nat :: SplitsAt(p, s, i) ==> i == 0
  {
  }

  lemma FoundHere(p: Pattern, s: string)
    requires MatchHere(p, s, [], []).Some?
    ensures SplitsAt(p, s, 0) && FirstAt(p, s, 0, MatchHere(p, s, [], []).value)
  {
    hide MatchHere, Splits, Captured;
    assert s[0..] == s;
    MatchIsRight(p, s, [], []);
    var found := MatchHere(p, s, [], []).value;
    var captures :| found == [] + captures && IsMatch(p, s, [], captures);
    assert [] + captures == captures;
  }

  lemma NotHere(p: Pattern, s: string)
    requires MatchHere(p, s, [], []).None?
    ensures !SplitsAt(p, s, 0)
  {
    hide MatchHere, Splits;
    assert s[0..] == s;
    if pieces :| Splits(p, s, pieces) {
      MatchIsFound(p, s, [], [], pieces);
    }
  }

  lemma OneOn(p: Pattern, s: string, i: nat)
    requires s != []
    ensures SplitsAt(p, s[1..], i) == SplitsAt(p, s, i + 1)
  {
    hide Splits;
    if i + 1 <= |s| {
      assert s[1..][i..] == s[i + 1..];
    }
  }

  // ----- numbers and lines

  /** All digits of a number, the last one counting ones, without leading zeros. */
  predicate IsNumeral(text: string, n: nat, base: nat, glyphs: string)
    requires 0 < base == |glyphs|
  {
    && text != [] && n < Numerals.Power(base, |text|) && (text[0] == '0' <==> n == 0)
    && forall i :: 0 <= i < |text| ==> text[|text| - 1 - i] == glyphs[Numerals.Place(n, base, i)]
  }

  lemma PrintIsNumeral(n: nat, base: nat, upper: bool, glyphs: string)
    requires base == |glyphs| && 2 <= base <= 16
    requires glyphs <= if upper then "0123456789ABCDEF" else "0123456789abcdef"
    ensures IsNumeral(Numerals.Print(n, base, upper), n, base, glyphs)
  {
    var text := Numerals.Print(n, base, upper);
    Numerals.PrintCovers(n, base, upper);
    Numerals.NoLeadingZero(n, base, upper);
    hide Numerals.Print, Numerals.Place, Numerals.Power;
    forall i | 0 <= i < |text| ensures text[|text| - 1 - i] == glyphs[Numerals.Place(n, base, i)] {
      Numerals.PrintedDigits(n, base, upper, i);
    }
  }

  predicate IsDecimal(text: string, n: int) {
    if n < 0 then text != [] && text[0] == '-' && IsNumeral(text[1..], -n, 10, "0123456789")
    else IsNumeral(text, n, 10, "0123456789")
  }

  /** The lines of both ends. */
  lemma Lines(name: string, length: string, address: nat, value: int)
    returns (number: string, upper: string, lower: string)
    ensures IsDecimal(number, value) && IsNumeral(upper, address, 16, "0123456789ABCDEF")
    ensures IsNumeral(lower, address, 16, "0123456789abcdef")
    ensures Line(WriteLVar(name, value)) == "WRITE_LVAR " + name + " " + number + "\n"
    ensures Line(WriteOffset(address, length, value)) == "WRITE_OFFSET " + upper + ":" + length + " " + number + "\n"
    ensures Line(ObserveLVar(name)) == "OBS_LVAR " + name + "\n"
    ensures Line(ObserveOffset(address, length)) == "OBS_OFFSET " + upper + ":" + length + "\n"
    ensures LVarLine(name, value) == "EVENT_LVAR " + name + " " + number
    ensures OffsetLine(address, value) == "EVENT_OFFSET " + lower + " " + number
  {
    number, upper, lower := Numerals.Decimal(value), Hex(address), Numerals.Print(address, 16, false);
    PrintIsNumeral(if value < 0 then -value else value, 10, false, "0123456789");
    PrintIsNumeral(address, 16, true, "0123456789ABCDEF");
    PrintIsNumeral(address, 16, false, "0123456789abcdef");
    assert value < 0 ==> number[1..] == Numerals.Print(-value, 10, false);
    hide *;
    LVarTexts(name, value);
    OffsetTexts(length, address, value);
  }

  lemma LVarTexts(name: string, value: int)
    ensures var number := Numerals.Decimal(value);
            && Line(WriteLVar(name, value)) == "WRITE_LVAR " + name + " " + number + "\n"
            && Line(ObserveLVar(name)) == "OBS_LVAR " + name + "\n"
            && LVarLine(name, value) == "EVENT_LVAR " + name + " " + number
  {
    hide Numerals.Decimal;
    var number := Numerals.Decimal(value);
    KeywordsSpaced();
    Flat("WRITE_LVAR", name, number, "\n");
    Flat("OBS_LVAR", name, "\n", []);
    Flat(LVAR, name, number, []);
  }

  lemma OffsetTexts(length: string, address: nat, value: int)
    ensures var number, upper, lower := Numerals.Decimal(value), Hex(address), Numerals.Print(address, 16, false);
            && Line(WriteOffset(address, length, value)) == "WRITE_OFFSET " + upper + ":" + length + " " + number + "\n"
            && Line(ObserveOffset(address, length)) == "OBS_OFFSET " + upper + ":" + length + "\n"
            && OffsetLine(address, value) == "EVENT_OFFSET " + lower + " " + number
  {
    hide Numerals.Decimal, Numerals.Print, Hex;
    var number, upper, lower := Numerals.Decimal(value), Hex(address), Numerals.Print(address, 16, false);
    KeywordsSpaced();
    Colon(upper, length, " " + (number + "\n"));
    Colon(upper, length, "\n");
    Flat("WRITE_OFFSET", upper + ":" + length, number, "\n");
    Flat("OBS_OFFSET", upper + ":" + length, "\n", []);
    Flat(OFFSET_KEYWORD, lower, number, []);
  }

  /** The order in which texts are joined does not matter. */
  lemma Flat(k: string, w: string, d: string, e: string)
    ensures k + " " + (w + " " + (d + e)) == k + " " + w + " " + d + e
    ensures k + (" " + (w + " " + d)) == k + " " + w + " " + d
    ensures k + " " + (w + d) == k + " " + w + d
  {
    assert k + (" " + (w + " " + d)) == k + " " + w + " " + d;
    assert k + " " + (w + " " + (d + e)) == k + " " + w + " " + d + e;
  }

  lemma Colon(u: string, length: string, rest: string)
    ensures u + ":" + (length + rest) == u + ":" + length + rest
  {
  }

  lemma KeywordsSpaced()
    ensures "WRITE_LVAR" + " " == "WRITE_LVAR " && "WRITE_OFFSET" + " " == "WRITE_OFFSET "
    ensures "OBS_LVAR" + " " == "OBS_LVAR " && "OBS_OFFSET" + " " == "OBS_OFFSET "
    ensures LVAR + " " == "EVENT_LVAR " && OFFSET_KEYWORD + " " == "EVENT_OFFSET "
  {
  }

  // ----- who is told

  datatype Observation = Observation(key: Key, handle: Handle)

  /** The table after some observations, the first one first. */
  function Table(history: seq<Observation>): Observers {
    if history == [] then map[]
    else
      var last := history[|history| - 1];
      Observe(Table(history[..|history| - 1]), last.key, last.handle)
  }

  /** The handles that observed a key, the first one first. */
  function ObservedBy(history: seq<Observation>, key: Key): seq<Handle> {
    if history == [] then []
    else
      var before := ObservedBy(history[..|history| - 1], key);
      var last := history[|history| - 1];
      if last.key == key then before + [last.handle] else before
  }

  /** After any observations, a change is told to every handle that observed it, as often as it did and in the
      order in which it did, except that nobody is told of a key with the name of one of the table's methods. */
  lemma {:induction false} ToldInOrder(history: seq<Observation>, key: Key, text: string)
    ensures var told := Notices(Table(history), key, text);
            if key == Name("insert") || key == Name("foreach") then told == []
            else
              && |told| == |ObservedBy(history, key)|
              && forall i :: 0 <= i < |told| ==> told[i] == Written(ObservedBy(history, key)[i], text)
    decreases |history|
  {
    if history != [] {
      ToldInOrder(history[..|history| - 1], key, text);
    }
  }
}
