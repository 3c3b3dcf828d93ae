/** The commands of the OACSP protocol: the lines a device prints and how the gateway parses them. */
module OacspCommands {
  import opened FlightVarTypes
  import opened LuaPatterns
  import Numerals

  datatype OffsetLength = UB | SB | UW | SW | UD | SD

  function Code(len: OffsetLength): (code: string)
    ensures |code| == 2 && AllIn(code, Letters)
  {
    match len
    case UB => "UB" case SB => "SB" case UW => "UW" case SW => "SW" case UD => "UD" case SD => "SD"
  }

  datatype Command =
    | WriteLVar(name: string, value: int)
    | WriteOffset(offset: nat, length: string, value: int)
    | ObserveLVar(name: string)
    | ObserveOffset(offset: nat, length: string)

  // ----- the device

  function Hex(n: nat): string { Numerals.Print(n, 16, true) }

  function Line(c: Command): string {
    match c
    case WriteLVar(name, value) => "WRITE_LVAR" + " " + (name + " " + (Numerals.Decimal(value) + "\n"))
    case WriteOffset(offset, length, value) =>
      "WRITE_OFFSET" + " " + (Hex(offset) + ":" + (length + " " + (Numerals.Decimal(value) + "\n")))
    case ObserveLVar(name) => "OBS_LVAR" + " " + (name + "\n")
    case ObserveOffset(offset, length) => "OBS_OFFSET" + " " + (Hex(offset) + ":" + (length + "\n"))
  }

  /** What a device can send: names of letters, digits and underscores, and 16-bit offsets. */
  predicate FromDevice(c: Command) {
    match c
    case WriteLVar(name, _) => name != [] && AllIn(name, NameChars)
    case WriteOffset(offset, length, _) => offset < 0x1_0000 && exists len :: length == Code(len)
    case ObserveLVar(name) => name != [] && AllIn(name, NameChars)
    case ObserveOffset(offset, length) => offset < 0x1_0000 && exists len :: length == Code(len)
  }

  // ----- the gateway

  const NUMBER: Pattern := [Open, OptionalMinus, Repeat(Decimals), Close]
  const NAME: Pattern := [Open, Repeat(NameChars), Close]
  const OFFSET: Pattern := [Open, Repeat(Hexadecimals), Close, Literal(":"), Open, Repeat(Letters), Close]

  function Keyword(k: string): Pattern { [Open, Literal(k), Close, Literal(" ")] }

  const WRITE_LVAR := Keyword("WRITE_LVAR") + (NAME + ([Literal(" ")] + NUMBER))
  const WRITE_OFFSET := Keyword("WRITE_OFFSET") + (OFFSET + ([Literal(" ")] + NUMBER))
  const OBS_LVAR := Keyword("OBS_LVAR") + NAME
  const OBS_OFFSET := Keyword("OBS_OFFSET") + OFFSET

  /** Numbers out of captured text. */
  function ToNumber(s: string): Option<int> {
    if s != [] && s[0] == '-' then
      if Numerals.AllDigits(s[1..], 10) then Some(-(Numerals.Parse(s[1..], 10) as int)) else None
    else
      if Numerals.AllDigits(s, 10) then Some(Numerals.Parse(s, 10) as int) else None
  }

  function FromHex(s: string): Option<nat> {
    if Numerals.AllDigits(s, 16) then Some(Numerals.Parse(s, 16)) else None
  }

  function Number(s: string): int {
    var n := ToNumber(s);
    if n.Some? then n.value else 0
  }

  function Address(s: string): nat {
    var n := FromHex(s);
    if n.Some? then n.value else 0
  }

  /** The patterns are tried one after the other, each anywhere in the line. */
  function ParseCommand(data: string): Option<Command> {
    var a := Find(WRITE_LVAR, data);
    if a.Some? && |a.value| == 3 then Some(WriteLVar(a.value[1], Number(a.value[2])))
    else
      var b := Find(WRITE_OFFSET, data);
      if b.Some? && |b.value| == 4 then Some(WriteOffset(Address(b.value[1]), b.value[2], Number(b.value[3])))
      else
        var c := Find(OBS_LVAR, data);
        if c.Some? && |c.value| == 2 then Some(ObserveLVar(c.value[1]))
        else
          var d := Find(OBS_OFFSET, data);
          if d.Some? && |d.value| == 3 then Some(ObserveOffset(Address(d.value[1]), d.value[2])) else None
  }

  // ----- parsing undoes printing

  predicate NoSpace(s: string) { forall i :: 0 <= i < |s| ==> s[i] != ' ' }

  predicate EndsWith(s: string, t: string) {
    |t| <= |s| && s[|s| - |t|..] == t
  }

  /** A keyword followed by a space can only be found at the end of a word. */
  lemma AfterOneWord(k: string, w: string, u: string, i: nat)
    requires NoSpace(k) && NoSpace(w) && NoSpace(u) && i <= |w + " " + u| && k + " " <= (w + " " + u)[i..]
    ensures EndsWith(w, k)
  {
    var s := w + " " + u;
    assert s[i + |k|] == (k + " ")[|k|] == ' ';
    assert i + |k| == |w|;
    assert forall j :: 0 <= j < |k| ==> k[j] == s[i..][j] == w[i + j];
  }

  lemma NoSpaceWithin(k: string, s: string, i: nat)
    requires NoSpace(k) && i <= |s| && k + " " <= s[i..]
    ensures forall m :: i <= m < i + |k| ==> s[m] != ' '
    ensures i + |k| < |s| && s[i + |k|] == ' '
  {
    assert s[i + |k|] == (k + " ")[|k|];
    forall m | i <= m < i + |k| ensures s[m] != ' ' {
      assert s[m] == s[i..][m - i] == k[m - i];
    }
  }

  lemma AfterTwoWords(k: string, w: string, u: string, v: string, i: nat)
    requires NoSpace(k) && NoSpace(w) && NoSpace(u) && NoSpace(v)
    requires i <= |w + " " + (u + " " + v)| && k + " " <= (w + " " + (u + " " + v))[i..]
    ensures EndsWith(w, k) || EndsWith(u, k)
  {
    var s := w + " " + (u + " " + v);
    NoSpaceWithin(k, s, i);
    assert s[|w|] == ' ' && s[|w| + 1 + |u|] == ' ';
    assert i + |k| == |w| || i + |k| == |w| + 1 + |u|;
    assert forall j :: 0 <= j < |k| ==> k[j] == s[i..][j] == s[i + j];
    if i + |k| == |w| {
      assert forall j :: 0 <= j < |k| ==> k[j] == w[i + j];
    } else {
      assert i > |w|;
      assert forall j :: 0 <= j < |k| ==> k[j] == u[i - |w| - 1 + j];
    }
  }

  lemma DecimalIsPlain(v: int)
    ensures var d := Numerals.Decimal(v);
            && d != [] && NoSpace(d)
            && (if v < 0 then d[0] == '-' && AllIn(d[1..], Decimals) && d[1..] != [] else AllIn(d, Decimals))
            && ToNumber(d) == Some(v)
  {
    var n := if v < 0 then -v else v;
    Numerals.ParsePrint(n, 10, false);
    var p := Numerals.Print(n, 10, false);
    assert forall i :: 0 <= i < |p| ==> Numerals.IsDigit(p[i], 10) && '0' <= p[i] <= '9';
    assert v < 0 ==> Numerals.Decimal(v)[1..] == p;
  }

  lemma HexIsPlain(n: nat)
    requires n < 0x1_0000
    ensures var h := Hex(n); h != [] && |h| <= 4 && AllIn(h, Hexadecimals) && NoSpace(h) && FromHex(h) == Some(n)
  {
    Numerals.ParsePrint(n, 16, true);
    assert forall i :: 0 <= i < |Hex(n)| ==> Numerals.IsDigit(Hex(n)[i], 16) && Hex(n)[i] != ' ';
    assert Numerals.Power(16, 4) == 16 * (16 * (16 * (16 * 1)));
    Numerals.PrintLength(n, 16, true, 4);
  }

  /** A captured repetition takes a word that is followed by something else. */
  lemma WordTaken(cls: Class, q: Pattern, word: string, rest: string, open: string, done: seq<string>)
    requires word != [] && AllIn(word, cls) && (rest == [] || !In(rest[0], cls))
    requires MatchHere(q, rest, word, done + [word]).Some?
    ensures MatchHere([Open, Repeat(cls), Close] + q, word + rest, open, done) ==
            MatchHere(q, rest, word, done + [word])
  {
    hide In;
    var p := [Open, Repeat(cls), Close] + q;
    assert p[1..][0] == Repeat(cls) && p[1..][1..][0] == Close && p[1..][1..][1..] == q;
    assert MatchHere(p[1..][1..], rest, word, done) == MatchHere(q, rest, word, done + [word]);
    assert [] + word == word;
    RepeatTakes(p[1..], cls, word, rest, [], done);
  }

  lemma NumberTaken(v: int, open: string, done: seq<string>)
    ensures MatchHere(NUMBER, Numerals.Decimal(v) + "\n", open, done) == Some(done + [Numerals.Decimal(v)])
  {
    DecimalIsPlain(v);
    var d := Numerals.Decimal(v);
    var n1, n2, n3 := NUMBER[1..], NUMBER[1..][1..], NUMBER[1..][1..][1..];
    assert n1[0] == OptionalMinus && n2[0] == Repeat(Decimals) && n3[0] == Close && n3[1..] == [];
    if v < 0 {
      assert d + "\n" == "-" + (d[1..] + "\n") && d == "-" + d[1..] && [] + "-" == "-";
      assert (d + "\n")[1..] == d[1..] + "\n";
      assert MatchHere(n3, "\n", d, done) == Some(done + [d]);
      RepeatTakes(n2, Decimals, d[1..], "\n", "-", done);
    } else {
      assert [] + d == d;
      assert MatchHere(n3, "\n", d, done) == Some(done + [d]);
      RepeatTakes(n2, Decimals, d, "\n", [], done);
    }
  }

  lemma FoundAtOnce(p: Pattern, keyword: string, rest: string, found: seq<string>)
    requires BeginsWith(p, keyword) && MatchHere(p[4..], rest, keyword + " ", [keyword]) == Some(found)
    ensures Find(p, keyword + " " + rest) == Some(found)
  {
    KeywordTaken(p, keyword, rest);
  }

  lemma WriteLVarFound(name: string, v: int)
    requires name != [] && AllIn(name, NameChars)
    ensures Find(WRITE_LVAR, Line(WriteLVar(name, v))) == Some(["WRITE_LVAR", name, Numerals.Decimal(v)])
  {
    var d := Numerals.Decimal(v);
    var rest := d + "\n";
    var found := ["WRITE_LVAR"] + [name] + [d];
    NumberTaken(v, name + " ", ["WRITE_LVAR"] + [name]);
    var q := [Literal(" ")] + NUMBER;
    assert q[1..] == NUMBER;
    LiteralTakes(q, " ", rest, name, ["WRITE_LVAR"] + [name]);
    WordTaken(NameChars, q, name, " " + rest, "WRITE_LVAR" + " ", ["WRITE_LVAR"]);
    assert name + " " + rest == name + (" " + rest);
    assert WRITE_LVAR[..4] == Keyword("WRITE_LVAR") && WRITE_LVAR[4..] == [Open, Repeat(NameChars), Close] + q;
    FoundAtOnce(WRITE_LVAR, "WRITE_LVAR", name + " " + rest, found);
    assert found == ["WRITE_LVAR", name, d];
  }

  /** The text of an offset is captured in two parts. */
  lemma OffsetTaken(q: Pattern, n: nat, length: string, rest: string, open: string, done: seq<string>)
    requires n < 0x1_0000 && length != [] && AllIn(length, Letters) && (rest == [] || !In(rest[0], Letters))
    requires MatchHere(q, rest, length, done + [Hex(n)] + [length]).Some?
    ensures MatchHere(OFFSET + q, Hex(n) + ":" + (length + rest), open, done) ==
            MatchHere(q, rest, length, done + [Hex(n)] + [length])
  {
    HexIsPlain(n);
    var h, after := Hex(n), length + rest;
    var q1 := [Open, Repeat(Letters), Close] + q;
    var q0 := [Literal(":")] + q1;
    assert !In(':', Hexadecimals) && (":" + after)[0] == ':';
    OffsetPattern(q);
    hide Hex, In, MatchHere, OFFSET;
    WordTaken(Letters, q, length, rest, h + ":", done + [h]);
    LiteralTakes(q0, ":", after, h, done + [h]);
    WordTaken(Hexadecimals, q0, h, ":" + after, open, done);
    assert h + ":" + after == h + (":" + after);
  }

  lemma OffsetPattern(q: Pattern)
    ensures var q0 := [Literal(":")] + ([Open, Repeat(Letters), Close] + q);
            OFFSET + q == [Open, Repeat(Hexadecimals), Close] + q0 && q0[1..] == [Open, Repeat(Letters), Close] + q
  {
  }

  lemma WriteOffsetFound(n: nat, length: string, v: int)
    requires n < 0x1_0000 && length != [] && AllIn(length, Letters)
    ensures Find(WRITE_OFFSET, Line(WriteOffset(n, length, v))) ==
            Some(["WRITE_OFFSET", Hex(n), length, Numerals.Decimal(v)])
  {
    hide Hex;
    var d := Numerals.Decimal(v);
    var rest := d + "\n";
    var done := ["WRITE_OFFSET"] + [Hex(n)] + [length];
    NumberTaken(v, length + " ", done);
    var q := [Literal(" ")] + NUMBER;
    assert q[1..] == NUMBER;
    LiteralTakes(q, " ", rest, length, done);
    OffsetTaken(q, n, length, " " + rest, "WRITE_OFFSET" + " ", ["WRITE_OFFSET"]);
    assert length + " " + rest == length + (" " + rest);
    assert WRITE_OFFSET[..4] == Keyword("WRITE_OFFSET") && WRITE_OFFSET[4..] == OFFSET + q;
    FoundAtOnce(WRITE_OFFSET, "WRITE_OFFSET", Hex(n) + ":" + (length + " " + rest), done + [d]);
    assert done + [d] == ["WRITE_OFFSET", Hex(n), length, d];
  }

  lemma ObserveLVarFound(name: string)
    requires name != [] && AllIn(name, NameChars)
    ensures Find(OBS_LVAR, Line(ObserveLVar(name))) == Some(["OBS_LVAR", name])
  {
    hide Find, RunLength;
    var q: Pattern := [];
    WordTaken(NameChars, q, name, "\n", "OBS_LVAR" + " ", ["OBS_LVAR"]);
    assert OBS_LVAR[..4] == Keyword("OBS_LVAR") && OBS_LVAR[4..] == [Open, Repeat(NameChars), Close] + q;
    FoundAtOnce(OBS_LVAR, "OBS_LVAR", name + "\n", ["OBS_LVAR"] + [name]);
    assert ["OBS_LVAR"] + [name] == ["OBS_LVAR", name];
  }

  lemma ObserveOffsetFound(n: nat, length: string)
    requires n < 0x1_0000 && length != [] && AllIn(length, Letters)
    ensures Find(OBS_OFFSET, Line(ObserveOffset(n, length))) == Some(["OBS_OFFSET", Hex(n), length])
  {
    hide Hex, Find, RunLength;
    var q: Pattern := [];
    OffsetTaken(q, n, length, "\n", "OBS_OFFSET" + " ", ["OBS_OFFSET"]);
    assert OBS_OFFSET[..4] == Keyword("OBS_OFFSET") && OBS_OFFSET[4..] == OFFSET + q;
    FoundAtOnce(OBS_OFFSET, "OBS_OFFSET", Hex(n) + ":" + (length + "\n"), ["OBS_OFFSET"] + [Hex(n)] + [length]);
    assert ["OBS_OFFSET"] + [Hex(n)] + [length] == ["OBS_OFFSET", Hex(n), length];
  }

  // ----- the patterns that come first do not match

  lemma OneWordNotFound(p: Pattern, k: string, w: string, u: string)
    requires BeginsWith(p, k) && NoSpace(k) && NoSpace(w) && NoSpace(u) && !EndsWith(w, k)
    ensures Find(p, w + " " + u).None?
  {
    hide EndsWith, BeginsWith, Find;
    var s := w + " " + u;
    forall i | 0 <= i <= |s| ensures !(k + " " <= s[i..]) {
      if k + " " <= s[i..] {
        AfterOneWord(k, w, u, i);
      }
    }
    NotFound(p, k, s);
  }

  lemma TwoWordsNotFound(p: Pattern, k: string, w: string, u: string, v: string)
    requires BeginsWith(p, k) && NoSpace(k) && NoSpace(w) && NoSpace(u) && NoSpace(v)
    requires !EndsWith(w, k) && !EndsWith(u, k)
    ensures Find(p, w + " " + (u + " " + v)).None?
  {
    hide EndsWith, BeginsWith, Find;
    var s := w + " " + (u + " " + v);
    forall i | 0 <= i <= |s| ensures !(k + " " <= s[i..]) {
      if k + " " <= s[i..] {
        AfterTwoWords(k, w, u, v, i);
      }
    }
    NotFound(p, k, s);
  }

  lemma Beginnings()
    ensures BeginsWith(WRITE_LVAR, "WRITE_LVAR") && BeginsWith(WRITE_OFFSET, "WRITE_OFFSET")
    ensures BeginsWith(OBS_LVAR, "OBS_LVAR") && BeginsWith(OBS_OFFSET, "OBS_OFFSET")
  {
  }

  lemma Plain(s: string, cls: Class)
    requires AllIn(s, cls)
    ensures NoSpace(s) && NoSpace(s + "\n")
  {
  }

  /** Every command a device can send is parsed by the gateway into the same command. */
  lemma ParseUndoesLine(c: Command)
    requires FromDevice(c)
    ensures ParseCommand(Line(c)) == Some(c)
  {
    Beginnings();
    hide BeginsWith, Find, Hex, In, Numerals.Decimal;
    match c
    case WriteLVar(name, value) =>
      WriteLVarFound(name, value);
      DecimalIsPlain(value);
    case WriteOffset(offset, length, value) =>
      OffsetParsed(offset, length, value);
    case ObserveLVar(name) =>
      Plain(name, NameChars);
      OneWordNotFound(WRITE_LVAR, "WRITE_LVAR", "OBS_LVAR", name + "\n");
      OneWordNotFound(WRITE_OFFSET, "WRITE_OFFSET", "OBS_LVAR", name + "\n");
      ObserveLVarFound(name);
    case ObserveOffset(offset, length) =>
      ObservationParsed(offset, length);
  }

  lemma KeywordsDiffer()
    ensures !EndsWith("WRITE_OFFSET", "WRITE_LVAR") && !EndsWith("OBS_OFFSET", "WRITE_LVAR")
    ensures !EndsWith("OBS_OFFSET", "WRITE_OFFSET") && !EndsWith("OBS_OFFSET", "OBS_LVAR")
  {
    assert |"OBS_OFFSET"| < |"WRITE_OFFSET"|;
    EndsOtherwise("WRITE_OFFSET", "WRITE_LVAR");
    EndsOtherwise("OBS_OFFSET", "WRITE_LVAR");
    EndsOtherwise("OBS_OFFSET", "OBS_LVAR");
  }

  lemma KeywordsHaveNoSpace()
    ensures NoSpace("WRITE_LVAR") && NoSpace("WRITE_OFFSET") && NoSpace("OBS_LVAR") && NoSpace("OBS_OFFSET")
  {
  }

  lemma EndsOtherwise(s: string, t: string)
    requires s != [] && t != [] && s[|s| - 1] != t[|t| - 1]
    ensures !EndsWith(s, t)
  {
    if |t| <= |s| {
      assert s[|s| - |t|..][|t| - 1] == s[|s| - 1];
    }
  }

  lemma Regrouped(h: string, length: string, rest: string)
    ensures h + ":" + (length + " " + rest) == h + ":" + length + " " + rest
  {
  }

  /** The text of an offset is short and has no space. */
  lemma OffsetText(n: nat, length: string)
    requires n < 0x1_0000 && exists len :: length == Code(len)
    ensures length != [] && AllIn(length, Letters)
    ensures var u := Hex(n) + ":" + length; NoSpace(u) && NoSpace(Hex(n) + ":" + (length + "\n")) && |u| <= 7
  {
    HexIsPlain(n);
    Plain(length, Letters);
    hide In, Hex;
  }

  lemma OffsetParsed(offset: nat, length: string, value: int)
    requires FromDevice(WriteOffset(offset, length, value))
    ensures ParseCommand(Line(WriteOffset(offset, length, value))) == Some(WriteOffset(offset, length, value))
  {
    Beginnings();
    KeywordsDiffer();
    KeywordsHaveNoSpace();
    OffsetText(offset, length);
    HexIsPlain(offset);
    DecimalIsPlain(value);
    WriteOffsetFound(offset, length, value);
    hide BeginsWith, Find, Hex, Numerals.Decimal, In, NoSpace;
    var u, v := Hex(offset) + ":" + length, Numerals.Decimal(value) + "\n";
    LineEnd(Numerals.Decimal(value));
    Regrouped(Hex(offset), length, v);
    TwoWordsNotFound(WRITE_LVAR, "WRITE_LVAR", "WRITE_OFFSET", u, v);
  }

  lemma LineEnd(s: string)
    requires NoSpace(s)
    ensures NoSpace(s + "\n")
  {
  }

  lemma ObservationParsed(offset: nat, length: string)
    requires FromDevice(ObserveOffset(offset, length))
    ensures ParseCommand(Line(ObserveOffset(offset, length))) == Some(ObserveOffset(offset, length))
  {
    Beginnings();
    KeywordsDiffer();
    KeywordsHaveNoSpace();
    OffsetText(offset, length);
    HexIsPlain(offset);
    ObserveOffsetFound(offset, length);
    hide BeginsWith, Find, Hex, In, NoSpace;
    var u := Hex(offset) + ":" + (length + "\n");
    OneWordNotFound(WRITE_LVAR, "WRITE_LVAR", "OBS_OFFSET", u);
    OneWordNotFound(WRITE_OFFSET, "WRITE_OFFSET", "OBS_OFFSET", u);
    OneWordNotFound(OBS_LVAR, "OBS_LVAR", "OBS_OFFSET", u);
  }
}
