/**
 The terminal's input (tunshell-client/src/shell/server/fallback/input_stream.rs): bytes arrive in
 any pieces and leave as tokens. The reference is `Scan`, which reads the whole input one unit at a
 time; the stream is proved to give its units whatever the pieces were.
 */
module InputStreams {
  import opened Wrappers

  const ESC: byte := 27
  const CR: byte := 13
  const DEL: byte := 127
  const EOT: byte := 3
  const BRACKET: byte := 91 // '['

  datatype Token =
    | Bytes(bytes: seq<byte>)
    | Enter
    | UpArrow
    | LeftArrow
    | RightArrow
    | DownArrow
    | Backspace
    | ControlC

  function ToBytes(t: Token): seq<byte> {
    match t
    case Bytes(bytes) => bytes
    case Enter => [CR]
    case UpArrow => [ESC, BRACKET, 65]
    case LeftArrow => [ESC, BRACKET, 68]
    case RightArrow => [ESC, BRACKET, 67]
    case DownArrow => [ESC, BRACKET, 66]
    case Backspace => [DEL]
    case ControlC => [EOT]
  }

  function AllBytes(ts: seq<Token>): seq<byte> {
    if ts == [] then [] else ToBytes(ts[0]) + AllBytes(ts[1..])
  }

  // What stands at the front of the input: an escape sequence cut short, a token of its own, or a
  // byte of text
  datatype Front = Cut | Special(token: Token) | Text

  function FrontOf(s: seq<byte>): Front
    requires s != []
  {
    if |s| >= 3 && s[..2] == [ESC, BRACKET] && 65 <= s[2] <= 68 then
      Special(match s[2] case 65 => UpArrow case 66 => DownArrow case 67 => RightArrow case _ => LeftArrow)
    else if s[0] == ESC && |s| < 3 then Cut
    else if s[0] == CR then Special(Enter)
    else if s[0] == DEL then Special(Backspace)
    else if s[0] == EOT then Special(ControlC)
    else Text
  }

  datatype Scanned = Scanned(units: seq<Token>, rest: seq<byte>)

  function UnitOf(s: seq<byte>): (t: Token)
    requires s != [] && !FrontOf(s).Cut?
    ensures 0 < |ToBytes(t)| <= |s| && s[..|ToBytes(t)|] == ToBytes(t)
  {
    if FrontOf(s).Special? then FrontOf(s).token else Bytes(s[..1])
  }

  /** The units of the input, and what is left at the end: an escape sequence cut short. */
  function Scan(s: seq<byte>): Scanned {
    if s == [] || FrontOf(s).Cut? then Scanned([], s)
    else
      var r := Scan(s[|ToBytes(UnitOf(s))|..]);
      r.(units := [UnitOf(s)] + r.units)
  }

  lemma {:induction false} ScanLeftover(s: seq<byte>)
    ensures var rest := Scan(s).rest; |rest| <= 2 && (rest != [] ==> rest[0] == ESC) && Scan(rest) == Scanned([], rest)
  {
    if s != [] && !FrontOf(s).Cut? {
      ScanLeftover(s[|ToBytes(UnitOf(s))|..]);
    }
  }

  /** No byte is lost or moved by scanning. */
  lemma {:induction false} ScanKeepsBytes(s: seq<byte>)
    ensures AllBytes(Scan(s).units) + Scan(s).rest == s
  {
    if s != [] && !FrontOf(s).Cut? {
      var t := ToBytes(UnitOf(s));
      ScanKeepsBytes(s[|t|..]);
      var r := Scan(s[|t|..]);
      assert ([UnitOf(s)] + r.units)[1..] == r.units;
      AppendAssociates(t, AllBytes(r.units), r.rest);
      assert s == s[..|t|] + s[|t|..];
    }
  }

  lemma FrontStays(a: seq<byte>, b: seq<byte>)
    requires a != [] && !FrontOf(a).Cut?
    ensures FrontOf(a + b) == FrontOf(a) && UnitOf(a + b) == UnitOf(a)
    ensures var n := |ToBytes(UnitOf(a))|; (a + b)[n..] == a[n..] + b
  {
    assert (a + b)[..1] == a[..1];
    if |a| >= 3 {
      assert (a + b)[..2] == a[..2] && (a + b)[2] == a[2];
    }
    var n := |ToBytes(UnitOf(a))|;
    assert (a + b)[n..] == a[n..] + b;
  }

  /** Scanning can stop anywhere and go on with what was left. */
  lemma {:induction false} ScanSplits(a: seq<byte>, b: seq<byte>)
    ensures Scan(a + b) ==
              Scanned(Scan(a).units + Scan(Scan(a).rest + b).units, Scan(Scan(a).rest + b).rest)
  {
    if a == [] {
      assert a + b == b;
    } else if !FrontOf(a).Cut? {
      FrontStays(a, b);
      var n := |ToBytes(UnitOf(a))|;
      hide FrontOf, UnitOf, ToBytes;
      ScanSplits(a[n..], b);
      AppendAssociates([UnitOf(a)], Scan(a[n..]).units, Scan(Scan(a).rest + b).units);
    } else {
      assert Scan(a) == Scanned([], a);
    }
  }

  // What the keys send

  /** Bytes that begin no key. */
  predicate Plain(b: byte) { b != ESC && b != CR && b != DEL && b != EOT }

  /** The cursor keys send CUU, CUD, CUF and CUB (sections 8.3.22, 8.3.19, 8.3.20 and 8.3.18 of ECMA-48);
      carriage return, delete and end of text stand for themselves, and so does any other byte. An
      escape waits until three bytes are there, and is text if they are no cursor key. */
  lemma FirstUnit(s: seq<byte>)
    requires s != []
    ensures Scan(s).units == [] <==> s[0] == 27 && |s| < 3
    ensures Scan(s).units != [] ==>
              Scan(s).units[0] ==
                if |s| >= 3 && s[0] == 27 && s[1] == 91 && s[2] == 65 then UpArrow
                else if |s| >= 3 && s[0] == 27 && s[1] == 91 && s[2] == 66 then DownArrow
                else if |s| >= 3 && s[0] == 27 && s[1] == 91 && s[2] == 67 then RightArrow
                else if |s| >= 3 && s[0] == 27 && s[1] == 91 && s[2] == 68 then LeftArrow
                else if s[0] == 13 then Enter
                else if s[0] == 127 then Backspace
                else if s[0] == 3 then ControlC
                else Bytes([s[0]])
  {
    assert |s| >= 3 ==> s[..2] == [s[0], s[1]];
    assert s[..1] == [s[0]];
    hide ToBytes;
  }

  // Runs of text

  function Singles(bytes: seq<byte>): seq<Token> {
    if bytes == [] then [] else [Bytes(bytes[..1])] + Singles(bytes[1..])
  }

  /** The units of a list of tokens: text byte by byte. */
  function Units(ts: seq<Token>): seq<Token> {
    if ts == [] then []
    else (if ts[0].Bytes? then Singles(ts[0].bytes) else [ts[0]]) + Units(ts[1..])
  }

  function Join(ts: seq<Token>, t: Token): seq<Token> {
    if t.Bytes? && ts != [] && ts[|ts| - 1].Bytes? then ts[..|ts| - 1] + [Bytes(ts[|ts| - 1].bytes + t.bytes)]
    else ts + [t]
  }

  function JoinAll(ts: seq<Token>, us: seq<Token>): seq<Token>
    decreases us
  {
    if us == [] then ts else JoinAll(Join(ts, us[0]), us[1..])
  }

  /** The list with adjacent texts merged. */
  function Merge(us: seq<Token>): seq<Token> { JoinAll([], us) }

  predicate NoEmptyText(ts: seq<Token>) {
    forall i :: 0 <= i < |ts| ==> ts[i] != Bytes([])
  }

  lemma {:induction false} JoinAllSplits(ts: seq<Token>, a: seq<Token>, b: seq<Token>)
    ensures JoinAll(ts, a + b) == JoinAll(JoinAll(ts, a), b)
    decreases a
  {
    if a == [] {
      assert a + b == b;
    } else {
      assert (a + b)[1..] == a[1..] + b;
      JoinAllSplits(Join(ts, a[0]), a[1..], b);
    }
  }

  lemma {:induction false} UnitsSplit(a: seq<Token>, b: seq<Token>)
    ensures Units(a + b) == Units(a) + Units(b)
    decreases a
  {
    if a == [] {
      assert a + b == b;
    } else {
      assert (a + b)[1..] == a[1..] + b;
      UnitsSplit(a[1..], b);
    }
  }

  lemma {:induction false} SinglesSplit(a: seq<byte>, b: seq<byte>)
    ensures Singles(a + b) == Singles(a) + Singles(b)
    decreases a
  {
    if a == [] {
      assert a + b == b;
    } else {
      assert (a + b)[1..] == a[1..] + b && (a + b)[..1] == a[..1];
      SinglesSplit(a[1..], b);
    }
  }

  /** Joining a text byte by byte is joining it at once. */
  lemma {:induction false} JoinSingles(ts: seq<Token>, bytes: seq<byte>)
    requires bytes != []
    ensures JoinAll(ts, Singles(bytes)) == Join(ts, Bytes(bytes))
    decreases bytes
  {
    var us := Singles(bytes);
    assert us[0] == Bytes(bytes[..1]) && us[1..] == Singles(bytes[1..]);
    if |bytes| == 1 {
      assert bytes[..1] == bytes;
    } else {
      var ts' := Join(ts, us[0]);
      JoinSingles(ts', bytes[1..]);
      assert bytes == bytes[..1] + bytes[1..];
      if ts != [] && ts[|ts| - 1].Bytes? {
        AppendAssociates(ts[|ts| - 1].bytes, bytes[..1], bytes[1..]);
        assert ts'[..|ts'| - 1] == ts[..|ts| - 1];
      } else {
        assert ts'[..|ts'| - 1] == ts;
      }
    }
  }

  /** Merging depends only on the units. */
  lemma {:induction false} MergeByUnits(ts: seq<Token>, us: seq<Token>)
    requires NoEmptyText(us)
    ensures JoinAll(ts, us) == JoinAll(ts, Units(us))
    decreases us
  {
    if us != [] {
      var first := if us[0].Bytes? then Singles(us[0].bytes) else [us[0]];
      JoinAllSplits(ts, first, Units(us[1..]));
      if us[0].Bytes? {
        JoinSingles(ts, us[0].bytes);
      } else {
        assert JoinAll(ts, [us[0]]) == JoinAll(Join(ts, us[0]), []);
      }
      MergeByUnits(Join(ts, us[0]), us[1..]);
    }
  }

  lemma JoinText(front: seq<Token>, a: seq<byte>, b: seq<byte>)
    ensures Units(front + [Bytes(a + b)]) == Units(front + [Bytes(a)]) + Units([Bytes(b)])
  {
    UnitsSplit(front, [Bytes(a)]);
    UnitsSplit(front, [Bytes(a + b)]);
    UnitsOfText(a);
    UnitsOfText(b);
    UnitsOfText(a + b);
    SinglesSplit(a, b);
    hide Units, Singles;
    AppendAssociates(Units(front), Singles(a), Singles(b));
  }

  lemma UnitsOfText(a: seq<byte>)
    ensures Units([Bytes(a)]) == Singles(a)
  {
    assert Units([Bytes(a)]) == Singles(a) + [];
  }

  lemma JoinUnits(ts: seq<Token>, t: Token)
    requires NoEmptyText(ts) && t != Bytes([])
    ensures Units(Join(ts, t)) == Units(ts) + Units([t])
    ensures NoEmptyText(Join(ts, t))
  {
    hide Units;
    if t.Bytes? && ts != [] && ts[|ts| - 1].Bytes? {
      var front, last := ts[..|ts| - 1], ts[|ts| - 1];
      assert ts == front + [last];
      JoinText(front, last.bytes, t.bytes);
    } else {
      UnitsSplit(ts, [t]);
    }
  }

  lemma {:induction false} JoinAllUnits(ts: seq<Token>, us: seq<Token>)
    requires NoEmptyText(ts) && NoEmptyText(us)
    ensures Units(JoinAll(ts, us)) == Units(ts) + Units(us) && NoEmptyText(JoinAll(ts, us))
    decreases us
  {
    if us != [] {
      JoinUnits(ts, us[0]);
      JoinAllUnits(Join(ts, us[0]), us[1..]);
      assert us == [us[0]] + us[1..];
      UnitsSplit([us[0]], us[1..]);
      AppendAssociates(Units(ts), Units([us[0]]), Units(us[1..]));
    }
  }

  lemma UnitIsUnit(s: seq<byte>, rest: seq<Token>)
    requires s != [] && !FrontOf(s).Cut?
    ensures Units([UnitOf(s)] + rest) == [UnitOf(s)] + Units(rest) && UnitOf(s) != Bytes([])
  {
    var t := UnitOf(s);
    assert ([t] + rest)[1..] == rest;
    if t.Bytes? {
      assert t.bytes == s[..1] && t.bytes[..1] == t.bytes && t.bytes[1..] == [];
      assert Singles(t.bytes) == [t] + Singles([]);
    }
  }

  /** Scanned units are units: splitting their texts changes nothing. */
  lemma {:induction false} ScanGivesUnits(s: seq<byte>)
    ensures Units(Scan(s).units) == Scan(s).units && NoEmptyText(Scan(s).units)
  {
    if s != [] && !FrontOf(s).Cut? {
      var rest := s[|ToBytes(UnitOf(s))|..];
      UnitIsUnit(s, Scan(rest).units);
      hide FrontOf, UnitOf, ToBytes;
      ScanGivesUnits(rest);
    }
  }

  predicate Typeable(t: Token) {
    t.Bytes? ==> t.bytes != [] && forall i :: 0 <= i < |t.bytes| ==> Plain(t.bytes[i])
  }

  lemma TypedUnit(t: Token, rest: seq<byte>)
    requires Typeable(t) && (t.Bytes? ==> |t.bytes| == 1)
    ensures var s := ToBytes(t) + rest;
            s != [] && !FrontOf(s).Cut? && UnitOf(s) == t && s[|ToBytes(UnitOf(s))|..] == rest
  {
    var s := ToBytes(t) + rest;
    assert s[|ToBytes(t)|..] == rest;
    if t.Bytes? {
      assert Plain(t.bytes[0]) && s[0] == t.bytes[0] && s[..1] == t.bytes;
    } else if |ToBytes(t)| == 3 {
      assert s[..2] == ToBytes(t)[..2] && s[2] == ToBytes(t)[2];
    }
  }

  /** The first byte of a longer text is a unit of its own. */
  lemma TextIsRead(ts: seq<Token>, ts': seq<Token>)
    requires ts != [] && Typeable(ts[0]) && ts[0].Bytes? && |ts[0].bytes| > 1
    requires ts' == [Bytes(ts[0].bytes[1..])] + ts[1..] && Scan(AllBytes(ts')) == Scanned(Units(ts'), [])
    ensures Scan(AllBytes(ts)) == Scanned(Units(ts), []) && AllBytes(ts) == ts[0].bytes[..1] + AllBytes(ts')
  {
    var (bytes, rest) := (ts[0].bytes, ts[1..]);
    var u := Bytes(bytes[..1]);
    assert ts'[1..] == rest && bytes == bytes[..1] + bytes[1..];
    AppendAssociates(bytes[..1], bytes[1..], AllBytes(rest));
    assert AllBytes(ts) == bytes[..1] + AllBytes(ts');
    TypedUnit(u, AllBytes(ts'));
    assert Singles(bytes) == [u] + Singles(bytes[1..]);
    AppendAssociates([u], Singles(bytes[1..]), Units(rest));
    hide FrontOf, UnitOf;
    assert Units(ts) == [u] + Units(ts');
  }

  /** So is any other token. */
  lemma UnitIsRead(ts: seq<Token>)
    requires ts != [] && Typeable(ts[0]) && (ts[0].Bytes? ==> |ts[0].bytes| == 1)
    requires Scan(AllBytes(ts[1..])) == Scanned(Units(ts[1..]), [])
    ensures Scan(AllBytes(ts)) == Scanned(Units(ts), [])
  {
    hide FrontOf, UnitOf, ToBytes, Plain;
    TypedUnit(ts[0], AllBytes(ts[1..]));
    OneUnit(ts);
    assert AllBytes(ts) == ToBytes(ts[0]) + AllBytes(ts[1..]);
    hide AllBytes, Units;
    assert Scan(AllBytes(ts)).units == [ts[0]] + Units(ts[1..]);
  }

  lemma OneUnit(ts: seq<Token>)
    requires ts != [] && (ts[0].Bytes? ==> |ts[0].bytes| == 1)
    ensures Units(ts) == [ts[0]] + Units(ts[1..])
  {
    if ts[0].Bytes? {
      OneByte(ts[0].bytes);
    }
    hide Singles;
  }

  lemma OneByte(bytes: seq<byte>)
    requires |bytes| == 1
    ensures Singles(bytes) == [Bytes(bytes)]
  {
    assert bytes[..1] == bytes && bytes[1..] == [];
    assert Singles(bytes[1..]) == [];
  }

  /** Keys and text that are typed are read as they were typed. */
  lemma {:induction false} TypedIsRead(ts: seq<Token>)
    requires forall i :: 0 <= i < |ts| ==> Typeable(ts[i])
    ensures Scan(AllBytes(ts)) == Scanned(Units(ts), [])
    decreases |ts|, if ts != [] && ts[0].Bytes? then |ts[0].bytes| else 0
  {
    hide Scan, AllBytes, Units;
    if ts == [] {
      NothingTyped();
    } else if ts[0].Bytes? && |ts[0].bytes| > 1 {
      var ts' := [Bytes(ts[0].bytes[1..])] + ts[1..];
      TypedIsRead(ts');
      TextIsRead(ts, ts');
    } else {
      TypedIsRead(ts[1..]);
      UnitIsRead(ts);
    }
  }

  lemma NothingTyped()
    ensures Scan(AllBytes([])) == Scanned(Units([]), [])
  {
  }

  lemma {:induction false} AllBytesSplit(a: seq<Token>, b: seq<Token>)
    ensures AllBytes(a + b) == AllBytes(a) + AllBytes(b)
    decreases a
  {
    if a == [] {
      assert a + b == b;
    } else {
      assert (a + b)[1..] == a[1..] + b;
      AllBytesSplit(a[1..], b);
      AppendAssociates(ToBytes(a[0]), AllBytes(a[1..]), AllBytes(b));
    }
  }

  lemma {:induction false} SinglesBytes(bytes: seq<byte>)
    ensures AllBytes(Singles(bytes)) == bytes
    decreases bytes
  {
    if bytes != [] {
      SinglesBytes(bytes[1..]);
      assert ([Bytes(bytes[..1])] + Singles(bytes[1..]))[1..] == Singles(bytes[1..]);
    }
  }

  lemma {:induction false} UnitsKeepBytes(ts: seq<Token>)
    ensures AllBytes(Units(ts)) == AllBytes(ts)
    decreases ts
  {
    if ts != [] {
      UnitsKeepBytes(ts[1..]);
      var first := if ts[0].Bytes? then Singles(ts[0].bytes) else [ts[0]];
      AllBytesSplit(first, Units(ts[1..]));
      if ts[0].Bytes? {
        SinglesBytes(ts[0].bytes);
      } else {
        assert AllBytes([ts[0]]) == ToBytes(ts[0]) + AllBytes([]);
      }
    }
  }

  // The stream

  function At(s: seq<byte>, i: nat): Option<byte> {
    if i < |s| then Some(s[i]) else None
  }

  /** The program's match on a byte and the two after it. */
  function MatchBytes(a: byte, b: Option<byte>, c: Option<byte>): Front {
    if a == ESC && b == Some(BRACKET) && c == Some(65) then Special(UpArrow)
    else if a == ESC && b == Some(BRACKET) && c == Some(66) then Special(DownArrow)
    else if a == ESC && b == Some(BRACKET) && c == Some(67) then Special(RightArrow)
    else if a == ESC && b == Some(BRACKET) && c == Some(68) then Special(LeftArrow)
    else if a == ESC && c == None then Cut
    else if a == CR then Special(Enter)
    else if a == DEL then Special(Backspace)
    else if a == EOT then Special(ControlC)
    else Text
  }

  lemma MatchIsFront(s: seq<byte>, i: nat)
    requires i < |s|
    ensures MatchBytes(s[i], At(s, i + 1), At(s, i + 2)) == FrontOf(s[i..])
  {
    var t := s[i..];
    if |t| >= 3 {
      assert t[..2] == [s[i], s[i + 1]];
    }
  }

  lemma ScanStep(s: seq<byte>, i: nat)
    requires i < |s| && !FrontOf(s[i..]).Cut?
    ensures Scan(s[i..]) == var n := |ToBytes(UnitOf(s[i..]))|;
              Scanned([UnitOf(s[i..])] + Scan(s[i + n..]).units, Scan(s[i + n..]).rest)
  {
    hide FrontOf, ToBytes, UnitOf;
    var t := s[i..];
    assert t[|ToBytes(UnitOf(t))|..] == s[i + |ToBytes(UnitOf(t))|..];
  }

  function PendingText(s: seq<byte>, start: nat, i: nat): seq<Token>
    requires start <= i <= |s|
  {
    if start < i then [Bytes(s[start..i])] else []
  }

  /** Where the tokeniser loop stands: us are the units of s[..i], made the tokens pushed for them,
      and s[start..i] is text still to be pushed. */
  ghost predicate Parsing(s: seq<byte>, us: seq<Token>, made: seq<Token>, start: nat, i: nat) {
    && start <= i <= |s|
    && Scan(s) == Scanned(us + Scan(s[i..]).units, Scan(s[i..]).rest)
    && Merge(us) == made + PendingText(s, start, i)
    && (made == [] || !made[|made| - 1].Bytes?)
  }

  lemma UnitScanned(s: seq<byte>, us: seq<Token>, i: nat)
    requires i < |s| && !FrontOf(s[i..]).Cut? && Scan(s) == Scanned(us + Scan(s[i..]).units, Scan(s[i..]).rest)
    ensures var t := UnitOf(s[i..]); var j := i + |ToBytes(t)|;
            i < j <= |s| && Scan(s) == Scanned(us + [t] + Scan(s[j..]).units, Scan(s[j..]).rest)
  {
    hide FrontOf, UnitOf, ToBytes, Scan;
    ScanStep(s, i);
    var t := UnitOf(s[i..]);
    AppendAssociates(us, [t], Scan(s[i + |ToBytes(t)|..]).units);
  }

  lemma KeyMerged(us: seq<Token>, pushed: seq<Token>, t: Token)
    requires Merge(us) == pushed && !t.Bytes?
    ensures Merge(us + [t]) == pushed + [t]
  {
    hide Merge;
    MergeGrows(us, t);
  }

  lemma NothingPending(s: seq<byte>, us: seq<Token>, made: seq<Token>, i: nat)
    requires i <= |s| && Scan(s) == Scanned(us + Scan(s[i..]).units, Scan(s[i..]).rest)
    requires Merge(us) == made && (made == [] || !made[|made| - 1].Bytes?)
    ensures Parsing(s, us, made, i, i)
  {
    hide Scan, Merge;
    assert made + [] == made;
  }

  lemma SpecialUnit(s: seq<byte>)
    requires s != [] && FrontOf(s).Special?
    ensures !FrontOf(s).token.Bytes? && UnitOf(s) == FrontOf(s).token
  {
  }

  lemma ParsedToken(s: seq<byte>, us: seq<Token>, made: seq<Token>, start: nat, i: nat)
    requires Parsing(s, us, made, start, i) && i < |s| && FrontOf(s[i..]).Special?
    ensures var t := FrontOf(s[i..]).token; var j := i + |ToBytes(t)|;
            i < j <= |s| && Parsing(s, us + [t], made + PendingText(s, start, i) + [t], j, j)
  {
    hide FrontOf, UnitOf, ToBytes, Scan, Merge, PendingText;
    var t := FrontOf(s[i..]).token;
    SpecialUnit(s[i..]);
    UnitScanned(s, us, i);
    KeyMerged(us, made + PendingText(s, start, i), t);
    hide Parsing;
    NothingPending(s, us + [t], made + PendingText(s, start, i) + [t], i + |ToBytes(t)|);
  }

  lemma ParsedText(s: seq<byte>, us: seq<Token>, made: seq<Token>, start: nat, i: nat)
    requires Parsing(s, us, made, start, i) && i < |s| && FrontOf(s[i..]).Text?
    ensures Parsing(s, us + [Bytes([s[i]])], made, start, i + 1)
  {
    var t := Bytes([s[i]]);
    ScanStep(s, i);
    assert s[i..][..1] == [s[i]] && UnitOf(s[i..]) == t && ToBytes(t) == [s[i]];
    hide FrontOf, UnitOf, ToBytes, Scan, Merge;
    AppendAssociates(us, [t], Scan(s[i + 1..]).units);
    MergeGrows(us, t);
    TextGrows(s, made, start, i);
  }

  lemma TextGrows(s: seq<byte>, made: seq<Token>, start: nat, i: nat)
    requires start <= i < |s| && (made == [] || !made[|made| - 1].Bytes?)
    ensures Join(made + PendingText(s, start, i), Bytes([s[i]])) == made + PendingText(s, start, i + 1)
  {
    assert s[start..i + 1] == s[start..i] + [s[i]];
    if start == i {
      assert made + [] == made && s[start..i + 1] == [s[i]];
    } else {
      assert (made + PendingText(s, start, i))[..|made|] == made;
    }
  }

  lemma MergeGrows(us: seq<Token>, t: Token)
    ensures Merge(us + [t]) == Join(Merge(us), t)
  {
    JoinAllSplits([], us, [t]);
    assert JoinAll(Merge(us), [t]) == JoinAll(Join(Merge(us), t), []);
  }

  lemma ParsedAll(s: seq<byte>, us: seq<Token>, made: seq<Token>, start: nat, i: nat)
    requires Parsing(s, us, made, start, i) && (i == |s| || FrontOf(s[i..]).Cut?)
    ensures Scan(s) == Scanned(us, s[i..]) && made + PendingText(s, start, i) == Merge(us)
  {
  }

  /** The same with the tokens pushed onto those that were there before. */
  ghost predicate Pushing(before: seq<Token>, tokens: seq<Token>, s: seq<byte>, start: nat, i: nat) {
    start <= i <= |s| && exists us, made :: Parsing(s, us, made, start, i) && tokens == before + made
  }

  lemma PushingStarts(tokens: seq<Token>, s: seq<byte>)
    ensures Pushing(tokens, tokens, s, 0, 0)
  {
    assert s[0..] == s && tokens == tokens + [];
    assert Parsing(s, [], [], 0, 0);
  }

  lemma PushedToken(before: seq<Token>, tokens: seq<Token>, s: seq<byte>, start: nat, i: nat)
    requires Pushing(before, tokens, s, start, i) && i < |s| && FrontOf(s[i..]).Special?
    ensures var t := FrontOf(s[i..]).token; var j := i + |ToBytes(t)|;
            i < j <= |s| && Pushing(before, tokens + PendingText(s, start, i) + [t], s, j, j)
  {
    hide FrontOf, Parsing, ToBytes, PendingText;
    var us, made :| Parsing(s, us, made, start, i) && tokens == before + made;
    ParsedToken(s, us, made, start, i);
    AppendAssociates(before, made, PendingText(s, start, i));
    AppendAssociates(before, made + PendingText(s, start, i), [FrontOf(s[i..]).token]);
  }

  lemma PushedText(before: seq<Token>, tokens: seq<Token>, s: seq<byte>, start: nat, i: nat)
    requires Pushing(before, tokens, s, start, i) && i < |s| && FrontOf(s[i..]).Text?
    ensures Pushing(before, tokens, s, start, i + 1)
  {
    hide FrontOf, Parsing;
    var us, made :| Parsing(s, us, made, start, i) && tokens == before + made;
    ParsedText(s, us, made, start, i);
  }

  lemma PushedAll(before: seq<Token>, tokens: seq<Token>, s: seq<byte>, start: nat, i: nat)
    requires Pushing(before, tokens, s, start, i) && (i == |s| || FrontOf(s[i..]).Cut?)
    ensures tokens + PendingText(s, start, i) == before + Merge(Scan(s).units) && Scan(s).rest == s[i..]
  {
    hide FrontOf, Parsing, Scan, Merge, PendingText;
    var us, made :| Parsing(s, us, made, start, i) && tokens == before + made;
    ParsedAll(s, us, made, start, i);
    AppendAssociates(before, made, PendingText(s, start, i));
  }

  /** Everything written is accounted for: in the tokens given out, in those waiting, in buff. */
  ghost predicate InStep(wrote: seq<byte>, given: seq<Token>, buff: seq<byte>) {
    && NoEmptyText(given)
    && Scan(wrote) == Scanned(Units(given) + Scan(buff).units, Scan(buff).rest)
    && AllBytes(given) + buff == wrote
  }

  lemma WriteInStep(wrote: seq<byte>, given: seq<Token>, buff: seq<byte>, more: seq<byte>)
    requires InStep(wrote, given, buff)
    ensures InStep(wrote + more, given, buff + more)
  {
    ScanSplits(wrote, more);
    ScanSplits(buff, more);
    AppendAssociates(Units(given), Scan(buff).units, Scan(Scan(buff).rest + more).units);
    AppendAssociates(AllBytes(given), buff, more);
  }

  lemma NoUnits()
    ensures Units([]) == [] && AllBytes([]) == [] && Merge([]) == []
  {
  }

  lemma {:induction false} MergeNonEmpty(ts: seq<Token>, us: seq<Token>)
    requires us != [] || ts != []
    ensures JoinAll(ts, us) != []
    decreases us
  {
    if us != [] {
      MergeNonEmpty(Join(ts, us[0]), us[1..]);
    }
  }

  lemma {:induction false} ParseInStep(wrote: seq<byte>, given: seq<Token>, buff: seq<byte>)
    requires InStep(wrote, given, buff)
    ensures InStep(wrote, given + Merge(Scan(buff).units), Scan(buff).rest)
    ensures NoEmptyText(Merge(Scan(buff).units))
    ensures Scan(buff).units != [] ==> Merge(Scan(buff).units) != []
  {
    hide FrontOf, UnitOf, ToBytes, Scan, AllBytes, Units, JoinAll;
    var r := Scan(buff);
    ScanGivesUnits(buff);
    NoUnits();
    if r.units != [] {
      MergeNonEmpty([], r.units);
    }
    assert [] + r.units == r.units && Units(given) + r.units + [] == Units(given) + r.units;
    JoinAllUnits([], r.units);
    UnitsSplit(given, Merge(r.units));
    ScanLeftover(buff);
    ScanKeepsBytes(buff);
    UnitsKeepBytes(Merge(r.units));
    AllBytesSplit(given, Merge(r.units));
    AppendAssociates(AllBytes(given), AllBytes(r.units), r.rest);
  }

  /** When nothing is waiting, the tokens given out, with adjacent texts merged, are those of the
      whole input: how it was cut into writes and polls makes no difference. */
  lemma {:induction false} TokensByInput(wrote: seq<byte>, given: seq<Token>, buff: seq<byte>)
    requires InStep(wrote, given, buff) && Scan(buff).units == []
    ensures Merge(given) == Merge(Scan(wrote).units) && buff == Scan(wrote).rest
    ensures |buff| <= 2 && (buff != [] ==> buff[0] == ESC)
  {
    hide FrontOf, UnitOf, ToBytes, Scan, AllBytes, Units, JoinAll;
    MergeByUnits([], given);
    ScanKeepsBytes(buff);
    ScanLeftover(wrote);
    NoUnits();
    assert Units(given) + [] == Units(given);
  }

  class InputStream {
    var buff: seq<byte>
    var tokens: seq<Token>
    var shutdown: bool
    ghost var wrote: seq<byte>     // everything ever written
    ghost var emitted: seq<Token>  // everything given out

    ghost predicate Valid()
      reads this
    {
      InStep(wrote, emitted + tokens, buff)
    }

    constructor ()
      ensures Valid() && wrote == [] && emitted == [] && !shutdown
    {
      buff, tokens, shutdown, wrote, emitted := [], [], false, [], [];
    }

    method PushText(start: nat, len: nat)
      requires start + len <= |buff|
      modifies this`tokens
      ensures tokens == old(tokens) + PendingText(buff, start, start + len)
    {
      if len > 0 {
        tokens := tokens + [Bytes(buff[start..start + len])];
      }
    }

    method ParseBuff()
      requires Valid()
      modifies this`buff, this`tokens
      ensures Valid() && tokens == old(tokens) + Merge(Scan(old(buff)).units) && buff == Scan(old(buff)).rest
      ensures old(Scan(buff).units) != [] ==> tokens != []
    {
      hide FrontOf, UnitOf, Scan, ToBytes, InStep, Pushing, Merge, PendingText, MatchBytes, At;
      var bytesStart: nat, bytesLen: nat, i: nat := 0, 0, 0;
      PushingStarts(tokens, buff);
      while i < |buff|
        invariant buff == old(buff) && i == bytesStart + bytesLen <= |buff|
        invariant Pushing(old(tokens), tokens, buff, bytesStart, i)
      {
        MatchIsFront(buff, i);
        var token := MatchBytes(buff[i], At(buff, i + 1), At(buff, i + 2));
        if token.Cut? {
          break;
        }
        if token.Special? {
          PushedToken(old(tokens), tokens, buff, bytesStart, i);
          PushText(bytesStart, bytesLen);
          i := i + |ToBytes(token.token)|;
          tokens := tokens + [token.token];
          bytesStart, bytesLen := i, 0;
        } else {
          PushedText(old(tokens), tokens, buff, bytesStart, i);
          i, bytesLen := i + 1, bytesLen + 1;
        }
      }
      PushedAll(old(tokens), tokens, buff, bytesStart, i);
      PushText(bytesStart, bytesLen);
      ParseInStep(wrote, emitted + old(tokens), buff);
      AppendAssociates(emitted, old(tokens), Merge(Scan(buff).units));
      buff := buff[bytesStart + bytesLen..];
    }

    method PollNext() returns (r: Poll<Option<Token>>)
      requires Valid()
      modifies this`buff, this`tokens, this`emitted
      ensures Valid()
      ensures (r.Ready? && r.value.Some?) <==> old(tokens != [] || Scan(buff).units != [])
      ensures r.Ready? && r.value.Some? ==> emitted == old(emitted) + [r.value.value]
      ensures r == Pending || r == Ready(None) ==>
                && emitted == old(emitted) && (r == Pending <==> !shutdown)
                && Merge(emitted) == Merge(Scan(wrote).units) && buff == Scan(wrote).rest
                && |buff| <= 2 && (buff != [] ==> buff[0] == ESC)
    {
      hide InStep;
      if |tokens| == 0 && |buff| > 0 {
        ParseBuff();
      }
      if |tokens| > 0 {
        var token := tokens[0];
        assert emitted + tokens == emitted + [token] + tokens[1..];
        tokens, emitted := tokens[1..], emitted + [token];
        return Ready(Some(token));
      }
      assert emitted + tokens == emitted;
      TokensByInput(wrote, emitted, buff);
      return if shutdown then Ready(None) else Pending;
    }

    method Write(buf: seq<byte>) returns (n: nat)
      requires Valid()
      modifies this`buff, this`wrote
      ensures Valid() && n == |buf| && wrote == old(wrote) + buf
    {
      WriteInStep(wrote, emitted + tokens, buff, buf);
      if |buf| == 0 {
        assert wrote + buf == wrote;
        return 0;
      }
      buff, wrote := buff + buf, wrote + buf;
      return |buf|;
    }

    method Shutdown()
      modifies this`shutdown
      ensures shutdown
    {
      shutdown := true;
    }
  }
}
