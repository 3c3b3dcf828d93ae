/** The events of the OACSP protocol: the lines the gateway prints and how a device parses them. */
module OacspEvents {
  import opened FlightVarTypes
  import opened LuaPatterns
  import opened OacspCommands
  import Numerals

  datatype DeviceEvent =
    | NoEvent
    | LVarUpdate(name: string, value: int)
    | OffsetUpdate(address: word, value: int)

  const LVAR: string := "EVENT_LVAR"
  const OFFSET_KEYWORD: string := "EVENT_OFFSET"

  const LINE_LIMIT := 255
  const NAME_LIMIT := 63

  // ----- the gateway

  function LVarLine(name: string, value: int): string {
    LVAR + (" " + (name + " " + Numerals.Decimal(value)))
  }

  function OffsetLine(address: nat, value: int): string {
    OFFSET_KEYWORD + (" " + (Numerals.Print(address, 16, false) + " " + Numerals.Decimal(value)))
  }

  // ----- the device

  predicate Blank(c: char) {
    c == ' ' || c == '\t' || c == '\n' || c == '\r' || c as int == 11 || c as int == 12
  }

  /** The characters received before a newline, as many as the buffer takes. */
  function ReadLine(input: string, limit: nat): string {
    if input == [] || limit == 0 || input[0] == '\n' then [] else [input[0]] + ReadLine(input[1..], limit - 1)
  }

  /** Every occurrence of t is removed, from left to right. */
  function RemoveAll(s: string, t: string): string
    requires t != []
    decreases |s|
  {
    if s == [] then []
    else if t <= s then RemoveAll(s[|t|..], t)
    else [s[0]] + RemoveAll(s[1..], t)
  }

  function TrimLeft(s: string): string {
    if s != [] && Blank(s[0]) then TrimLeft(s[1..]) else s
  }

  function TrimRight(s: string): string {
    if s != [] && Blank(s[|s| - 1]) then TrimRight(s[..|s| - 1]) else s
  }

  function IndexOf(s: string, c: char): (i: nat)
    ensures i <= |s|
  {
    if s == [] || s[0] == c then 0 else 1 + IndexOf(s[1..], c)
  }

  function FirstTwo(s: string): Option<(string, string)> {
    var sep := IndexOf(s, ' ');
    if sep == |s| then None else Some((s[..sep], s[sep + 1..]))
  }

  /** The number at the beginning of a text, or zero. */
  function ToInt(s: string): int {
    var t := TrimLeft(s);
    if t != [] && t[0] == '-' then -(Leading(t[1..], Decimals, 10) as int)
    else if t != [] && t[0] == '+' then Leading(t[1..], Decimals, 10)
    else Leading(t, Decimals, 10)
  }

  function Leading(s: string, cls: Class, base: nat): nat
    requires (cls == Decimals && base == 10) || (cls == Hexadecimals && base == 16)
  {
    var run := s[..RunLength(s, cls)];
    assert Numerals.AllDigits(run, base) by {
      assert forall i :: 0 <= i < |run| ==> In(run[i], cls);
    }
    Numerals.Parse(run, base)
  }

  /** The first seven characters as a hexadecimal number of 16 bits. */
  function HexToWord(s: string): word {
    var t := TrimLeft(if |s| > 7 then s[..7] else s);
    var u := if t != [] && (t[0] == '-' || t[0] == '+') then t[1..] else t;
    var v := if |u| > 2 && u[0] == '0' && (u[1] == 'x' || u[1] == 'X') && In(u[2], Hexadecimals) then u[2..] else u;
    var n := Leading(v, Hexadecimals, 16) as int;
    (if t != [] && t[0] == '-' then -n else n) % 0x1_0000
  }

  function Truncated(s: string): string {
    if |s| > NAME_LIMIT then s[..NAME_LIMIT] else s
  }

  /** The event in a line, if there is one. */
  function ParseLVar(line: string): Option<DeviceEvent> {
    match FirstTwo(TrimRight(TrimLeft(RemoveAll(line, LVAR))))
    case None => None
    case Some((name, value)) => Some(LVarUpdate(Truncated(name), ToInt(value)))
  }

  function ParseOffset(line: string): Option<DeviceEvent> {
    match FirstTwo(TrimRight(TrimLeft(RemoveAll(line, OFFSET_KEYWORD))))
    case None => None
    case Some((offset, value)) => Some(OffsetUpdate(HexToWord(offset), ToInt(value)))
  }

  function ParseEvent(input: string): Option<DeviceEvent> {
    var line := ReadLine(input, LINE_LIMIT);
    if LVAR <= line then ParseLVar(line)
    else if OFFSET_KEYWORD <= line then ParseOffset(line)
    else None
  }

  // ----- reading a line

  lemma {:induction false} ReadLineOf(line: string, rest: string, limit: nat)
    requires |line| <= limit && forall i :: 0 <= i < |line| ==> line[i] != '\n'
    ensures ReadLine(line + "\n" + rest, limit) == line
  {
    if line == [] {
      assert (line + "\n" + rest)[0] == '\n';
    } else {
      assert (line + "\n" + rest)[1..] == line[1..] + "\n" + rest;
      ReadLineOf(line[1..], rest, limit - 1);
    }
  }

  // ----- removing keywords

  predicate Occurs(t: string, s: string) {
    exists i :: 0 <= i <= |s| && t <= s[i..]
  }

  /** Removing changes a text exactly when there is something to remove. */
  lemma {:induction false} RemoveAllChanges(s: string, t: string)
    requires t != []
    ensures if Occurs(t, s) then |RemoveAll(s, t)| < |s| else RemoveAll(s, t) == s
    ensures |RemoveAll(s, t)| <= |s|
    decreases |s|
  {
    if s == [] {
    } else if t <= s {
      assert t <= s[0..];
      RemoveAllChanges(s[|t|..], t);
    } else {
      RemoveAllChanges(s[1..], t);
      assert Occurs(t, s) <==> Occurs(t, s[1..]) by {
        if Occurs(t, s) {
          var i :| 0 <= i <= |s| && t <= s[i..];
          assert i > 0 by { assert s[0..] == s; }
          assert s[1..][i - 1..] == s[i..];
        }
        if Occurs(t, s[1..]) {
          var i :| 0 <= i <= |s[1..]| && t <= s[1..][i..];
          assert s[i + 1..] == s[1..][i..];
        }
      }
    }
  }

  lemma StartsInWord(a: string, b: string, t: string)
    requires NoSpace(t)
    ensures t <= a + " " + b <==> t <= a
  {
    var s := a + " " + b;
    if t <= s {
      assert forall m :: 0 <= m < |t| ==> s[m] == t[m];
      assert s[|a|] == ' ';
      assert t == s[..|t|] == a[..|t|];
    }
  }

  /** Words are treated one by one, for a keyword without spaces. */
  lemma {:induction false} RemoveAllSplits(a: string, b: string, t: string)
    requires t != [] && NoSpace(t)
    ensures RemoveAll(a + " " + b, t) == RemoveAll(a, t) + " " + RemoveAll(b, t)
    decreases |a|
  {
    var s := a + " " + b;
    hide RemoveAll;
    StartsInWord(a, b, t);
    RemoveStep(s, t);
    RemoveStep(a, t);
    if a == [] {
      assert s[0] == ' ' && s[1..] == b;
    } else if t <= a {
      assert s[|t|..] == a[|t|..] + " " + b && t <= s;
      RemoveAllSplits(a[|t|..], b, t);
    } else {
      assert s[1..] == a[1..] + " " + b && s[0] == a[0];
      RemoveAllSplits(a[1..], b, t);
      Regroup(a[0], RemoveAll(a[1..], t), RemoveAll(b, t));
    }
  }

  lemma Regroup(c: char, x: string, y: string)
    ensures [c] + (x + " " + y) == [c] + x + " " + y
  {
  }

  lemma RemoveStep(s: string, t: string)
    requires t != []
    ensures s == [] ==> RemoveAll(s, t) == []
    ensures s != [] && t <= s ==> RemoveAll(s, t) == RemoveAll(s[|t|..], t)
    ensures s != [] && !(t <= s) ==> RemoveAll(s, t) == [s[0]] + RemoveAll(s[1..], t)
  {
  }

  lemma {:induction false} RemoveAllKeeps(s: string, t: string, cls: Class)
    requires t != [] && AllIn(s, cls)
    ensures AllIn(RemoveAll(s, t), cls)
    decreases |s|
  {
    hide In;
    if s != [] {
      if t <= s {
        RemoveAllKeeps(s[|t|..], t, cls);
      } else {
        RemoveAllKeeps(s[1..], t, cls);
      }
    }
  }

  lemma {:induction false} RemoveNothing(s: string, t: string)
    requires t != [] && forall i :: 0 <= i < |s| ==> s[i] != t[0]
    ensures RemoveAll(s, t) == s
  {
    if s != [] {
      assert s[0] != t[0] && !(t <= s);
      RemoveNothing(s[1..], t);
      assert [s[0]] + s[1..] == s;
    }
  }

  // ----- parsing undoes printing

  lemma {:induction false} IndexOfIs(w: string, rest: string)
    requires NoSpace(w)
    ensures IndexOf(w + " " + rest, ' ') == |w|
  {
    if w != [] {
      assert (w + " " + rest)[1..] == w[1..] + " " + rest;
      IndexOfIs(w[1..], rest);
    }
  }

  lemma {:induction false} NoIndex(w: string)
    requires NoSpace(w)
    ensures IndexOf(w, ' ') == |w|
  {
    if w != [] {
      NoIndex(w[1..]);
    }
  }

  lemma NothingToTrim(s: string)
    requires s != [] && !Blank(s[0]) && !Blank(s[|s| - 1])
    ensures TrimRight(TrimLeft(s)) == s && TrimRight(TrimLeft(" " + s)) == s
            && TrimRight(TrimLeft(" " + (" " + s))) == s
  {
    assert (" " + s)[1..] == s && (" " + (" " + s))[1..] == " " + s;
  }

  lemma TwoParts(w: string, d: string)
    requires NoSpace(w) && w != [] && !Blank(w[0]) && d != [] && !Blank(d[|d| - 1])
    ensures FirstTwo(TrimRight(TrimLeft(" " + (w + " " + d)))) == Some((w, d))
  {
    var s := w + " " + d;
    assert s[0] == w[0] && s[|s| - 1] == d[|d| - 1];
    NothingToTrim(s);
    IndexOfIs(w, d);
    hide TrimLeft, TrimRight, IndexOf, Blank;
    assert s[..|w|] == w && s[|w| + 1..] == d;
  }

  lemma OnePart(d: string)
    requires NoSpace(d) && d != [] && !Blank(d[0]) && !Blank(d[|d| - 1])
    ensures FirstTwo(TrimRight(TrimLeft(" " + ([] + " " + d)))) == None
  {
    assert [] + " " + d == " " + d;
    NothingToTrim(d);
    NoIndex(d);
    hide TrimLeft, TrimRight, IndexOf, Blank;
  }

  /** What is left of a line once the keyword is gone: a space, a word, a space and a number. */
  lemma TwoTokens(w: string, v: int)
    requires NoSpace(w) && forall i :: 0 <= i < |w| ==> !Blank(w[i])
    ensures FirstTwo(TrimRight(TrimLeft(" " + (w + " " + Numerals.Decimal(v))))) ==
            if w == [] then None else Some((w, Numerals.Decimal(v)))
    ensures ToInt(Numerals.Decimal(v)) == v
  {
    hide FirstTwo, TrimLeft, TrimRight, ToInt, Numerals.Decimal, Blank;
    DecimalIsPlain(v);
    DecimalParses(v);
    LastNotBlank(v);
    if w == [] {
      OnePart(Numerals.Decimal(v));
    } else {
      TwoParts(w, Numerals.Decimal(v));
    }
  }

  lemma LastNotBlank(v: int)
    ensures var d := Numerals.Decimal(v); d != [] && !Blank(d[0]) && !Blank(d[|d| - 1])
  {
    DecimalIsPlain(v);
    var d := Numerals.Decimal(v);
    assert v < 0 ==> d[|d| - 1] == d[1..][|d| - 2];
  }

  lemma DecimalParses(v: int)
    ensures ToInt(Numerals.Decimal(v)) == v
  {
    DecimalIsPlain(v);
    LastNotBlank(v);
    var d := Numerals.Decimal(v);
    if v < 0 {
      WholeRun(d[1..], Decimals);
    } else {
      WholeRun(d, Decimals);
    }
  }

  lemma WholeRun(s: string, cls: Class)
    requires AllIn(s, cls)
    ensures RunLength(s, cls) == |s| && s[..RunLength(s, cls)] == s
  {
    RunIs(s, [], cls);
    assert s + [] == s;
  }

  predicate IsName(s: string) { s != [] && AllIn(s, NameChars) }

  lemma NamesArePlain(s: string)
    requires AllIn(s, NameChars)
    ensures NoSpace(s) && forall i :: 0 <= i < |s| ==> !Blank(s[i])
  {
  }

  lemma DecimalHasNoKeyword(v: int)
    ensures RemoveAll(Numerals.Decimal(v), LVAR) == Numerals.Decimal(v)
    ensures RemoveAll(Numerals.Decimal(v), OFFSET_KEYWORD) == Numerals.Decimal(v)
  {
    DecimalIsPlain(v);
    var d := Numerals.Decimal(v);
    assert v < 0 ==> d == "-" + d[1..];
    assert forall i :: 0 <= i < |d| ==> d[i] != 'E' by {
      assert v < 0 ==> forall i :: 1 <= i < |d| ==> d[i] == d[1..][i - 1];
    }
    RemoveNothing(d, LVAR);
    RemoveNothing(d, OFFSET_KEYWORD);
  }

  lemma KeywordRemoved(t: string, w: string, v: int)
    requires t == LVAR || t == OFFSET_KEYWORD
    ensures RemoveAll(t + (" " + (w + " " + Numerals.Decimal(v))), t) ==
            " " + (RemoveAll(w, t) + " " + Numerals.Decimal(v))
  {
    DecimalHasNoKeyword(v);
    assert NoSpace(t);
    var d := Numerals.Decimal(v);
    var s := w + " " + d;
    assert (t + (" " + s))[|t|..] == " " + s;
    assert [] + " " + s == " " + s;
    RemoveAllSplits(w, d, t);
    RemoveAllSplits([], s, t);
    assert RemoveAll([], t) + " " + RemoveAll(s, t) == " " + RemoveAll(s, t);
  }

  /** What a device makes of the line for a variable: the name without the keyword, cut to its limit. */
  lemma LVarParsed(name: string, v: int)
    requires AllIn(name, NameChars)
    ensures var left := RemoveAll(name, LVAR);
            ParseLVar(LVarLine(name, v)) == if left == [] then None else Some(LVarUpdate(Truncated(left), v))
  {
    RemoveAllKeeps(name, LVAR, NameChars);
    var left := RemoveAll(name, LVAR);
    NamesArePlain(left);
    KeywordRemoved(LVAR, name, v);
    TwoTokens(left, v);
    hide RemoveAll, TrimLeft, TrimRight, FirstTwo, ToInt, Numerals.Decimal, In;
  }

  predicate IsLong(v: int) { -0x8000_0000 <= v < 0x8000_0000 }

  lemma DecimalLength(v: int)
    requires IsLong(v)
    ensures |Numerals.Decimal(v)| <= 11
  {
    var n := if v < 0 then -v else v;
    assert Numerals.Power(10, 10) == 10_000_000_000;
    Numerals.PrintLength(n, 10, false, 10);
  }

  lemma DecimalHasNoNewline(v: int)
    ensures forall i :: 0 <= i < |Numerals.Decimal(v)| ==> Numerals.Decimal(v)[i] != '\n'
  {
    DecimalIsPlain(v);
    var d := Numerals.Decimal(v);
    assert v < 0 ==> forall i :: 1 <= i < |d| ==> d[i] == d[1..][i - 1];
  }

  lemma LVarLineIsRead(name: string, v: int, rest: string)
    requires IsName(name) && IsLong(v) && |name| <= NAME_LIMIT
    ensures ReadLine(LVarLine(name, v) + "\n" + rest, LINE_LIMIT) == LVarLine(name, v)
  {
    DecimalLength(v);
    DecimalHasNoNewline(v);
    NamesArePlain(name);
    hide Numerals.Decimal, In, ReadLine;
    ReadLineOf(LVarLine(name, v), rest, LINE_LIMIT);
  }

  lemma NamesAreCut(input: string)
    ensures match ParseEvent(input)
            case Some(LVarUpdate(name, _)) => |name| <= NAME_LIMIT
            case _ => true
  {
  }

  /** A device parses the line for a variable into the same event exactly when it has room for the name and
      the name does not contain the keyword. */
  lemma LVarEventExactly(name: string, v: int, rest: string)
    requires IsName(name) && IsLong(v)
    ensures ParseEvent(LVarLine(name, v) + "\n" + rest) == Some(LVarUpdate(name, v)) <==>
            |name| <= NAME_LIMIT && !Occurs(LVAR, name)
  {
    var input := LVarLine(name, v) + "\n" + rest;
    if |name| > NAME_LIMIT {
      NamesAreCut(input);
    } else {
      LVarLineIsRead(name, v, rest);
      LVarParsed(name, v);
      RemoveAllChanges(name, LVAR);
      assert LVAR <= LVarLine(name, v);
      hide RemoveAll, ParseLVar, ReadLine, Numerals.Decimal, In, LVarLine, Occurs;
    }
  }

  lemma {:induction false} LowerCase(n: nat)
    ensures var h := Numerals.Print(n, 16, false);
            h != [] && AllIn(h, Hexadecimals) && forall i :: 0 <= i < |h| ==> '0' <= h[i] <= '9' || 'a' <= h[i] <= 'f'
    decreases n
  {
    if n >= 16 {
      Numerals.Shrinks(n, 16);
      LowerCase(n / 16);
    }
  }

  lemma HexIsShort(address: word)
    ensures var h := Numerals.Print(address, 16, false);
            && h != [] && |h| <= 4
            && forall i :: 0 <= i < |h| ==> !Blank(h[i]) && h[i] != ' ' && h[i] != '\n' && h[i] != 'E'
  {
    LowerCase(address);
    assert Numerals.Power(16, 4) == 16 * (16 * (16 * (16 * 1)));
    Numerals.PrintLength(address, 16, false, 4);
    hide Numerals.Print;
  }

  lemma HexBack(address: word)
    ensures HexToWord(Numerals.Print(address, 16, false)) == address
  {
    HexIsShort(address);
    LowerCase(address);
    Numerals.ParsePrint(address, 16, false);
    var h := Numerals.Print(address, 16, false);
    WholeRun(h, Hexadecimals);
    hide Numerals.Print, Numerals.Parse, RunLength, In, Blank;
    assert TrimLeft(h) == h;
  }

  lemma OffsetParsed(address: word, v: int)
    ensures ParseOffset(OffsetLine(address, v)) == Some(OffsetUpdate(address, v))
  {
    HexIsShort(address);
    HexBack(address);
    var h := Numerals.Print(address, 16, false);
    RemoveNothing(h, OFFSET_KEYWORD);
    KeywordRemoved(OFFSET_KEYWORD, h, v);
    TwoTokens(h, v);
    hide Numerals.Print, Numerals.Decimal, RemoveAll, TrimLeft, TrimRight, FirstTwo, ToInt, HexToWord, Blank;
  }

  lemma OffsetLineIsRead(address: word, v: int, rest: string)
    requires IsLong(v)
    ensures ReadLine(OffsetLine(address, v) + "\n" + rest, LINE_LIMIT) == OffsetLine(address, v)
  {
    HexIsShort(address);
    DecimalLength(v);
    DecimalHasNoNewline(v);
    hide Numerals.Print, Numerals.Decimal, Blank, ReadLine;
    ReadLineOf(OffsetLine(address, v), rest, LINE_LIMIT);
  }

  /** A device parses the line for an offset into the same event. */
  lemma OffsetEvent(address: word, v: int, rest: string)
    requires IsLong(v)
    ensures ParseEvent(OffsetLine(address, v) + "\n" + rest) == Some(OffsetUpdate(address, v))
  {
    OffsetParsed(address, v);
    OffsetLineIsRead(address, v, rest);
    OffsetKeywordFirst(Numerals.Print(address, 16, false), v);
    hide Numerals.Print, Numerals.Decimal, ParseOffset, ReadLine;
  }

  lemma OffsetKeywordFirst(h: string, v: int)
    ensures var line := OFFSET_KEYWORD + (" " + (h + " " + Numerals.Decimal(v)));
            OFFSET_KEYWORD <= line && !(LVAR <= line)
  {
    var line := OFFSET_KEYWORD + (" " + (h + " " + Numerals.Decimal(v)));
    assert line[6] == 'O' && LVAR[6] == 'L';
  }
}
