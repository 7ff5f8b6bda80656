/**
  QString::arg, as far as numbering an alias with "%1 %2" needs it (backend/models/db-manager.cpp,
  applySchemaV4): the place markers of a template, the lowest of them filled in everywhere, and
  that different numbers give different texts whatever markers an alias holds itself.
 */
module QStringArg {
  import opened Common

  const DIGITS := "0123456789"

  predicate IsDigit(c: char) {
    '0' <= c <= '9'
  }

  function DigitValue(c: char): nat
    requires IsDigit(c)
  {
    c as int - '0' as int
  }

  // ------------------------------------------------------------------ numbers as text

  function Digits(n: nat): (s: string)
    ensures s != "" && forall i | 0 <= i < |s| :: IsDigit(s[i])
  {
    if n < 10 then [DIGITS[n]] else Digits(n / 10) + [DIGITS[n % 10]]
  }

  lemma LastDigit(n: nat)
    ensures var s := Digits(n);
            && s[|s| - 1] == DIGITS[n % 10]
            && (|s| == 1 <==> n < 10)
            && (n >= 10 ==> s[..|s| - 1] == Digits(n / 10))
  {}

  lemma {:induction false} DigitsInjective(m: nat, n: nat)
    requires Digits(m) == Digits(n)
    ensures m == n
    decreases m
  {
    LastDigit(m);
    LastDigit(n);
    assert forall i, j | 0 <= i < j < 10 :: DIGITS[i] != DIGITS[j];
    hide Digits;
    if m >= 10 {
      DigitsInjective(m / 10, n / 10);
    }
  }

  /** How a locale writes numbers: its ten digits, its group separator, and in front of which
      digits of a number of some length a separator goes. */
  datatype LocaleData = LocaleData(digits: string, group: string, breaks: (nat, nat) -> bool)

  predicate IsLocale(l: LocaleData) {
    && |l.digits| == 10
    && (forall i, j | 0 <= i < j < 10 :: l.digits[i] != l.digits[j])
    && (forall i | 0 <= i < |l.group| :: l.group[i] !in l.digits && !IsDigit(l.group[i]))
  }

  type Locale = l: LocaleData | IsLocale(l) witness LocaleData(DIGITS, ",", (n, i) => false)

  /** One digit at place `i` of `n`, with the separator in front of it if one goes there. */
  function LocalDigit(l: Locale, c: char, n: nat, i: nat): string
    requires IsDigit(c)
  {
    (if l.breaks(n, i) then l.group else "") + [l.digits[DigitValue(c)]]
  }

  function LocalizedFrom(l: Locale, s: string, n: nat): string
    requires forall i | 0 <= i < |s| :: IsDigit(s[i])
  {
    if s == "" then "" else
    LocalizedFrom(l, s[..|s| - 1], n) + LocalDigit(l, s[|s| - 1], n, |s| - 1)
  }

  /** A number as the locale writes it. */
  function Localized(l: Locale, n: nat): string {
    LocalizedFrom(l, Digits(n), |Digits(n)|)
  }

  /** The characters that stand for digits, of the locale or plain ones. */
  function Count(l: Locale, s: string): nat {
    if s == "" then 0 else
    Count(l, s[..|s| - 1]) + if s[|s| - 1] in l.digits || IsDigit(s[|s| - 1]) then 1 else 0
  }

  lemma {:induction false} CountAppend(l: Locale, a: string, b: string)
    ensures Count(l, a + b) == Count(l, a) + Count(l, b)
  {
    if b == "" {
      assert a + b == a;
    } else {
      CountAppend(l, a, b[..|b| - 1]);
      assert (a + b)[..|a + b| - 1] == a + b[..|b| - 1];
    }
  }

  lemma {:induction false} CountNone(l: Locale, s: string)
    requires forall i | 0 <= i < |s| :: s[i] !in l.digits && !IsDigit(s[i])
    ensures Count(l, s) == 0
  {
    if s != "" {
      CountNone(l, s[..|s| - 1]);
    }
  }

  lemma {:induction false} CountDigits(l: Locale, s: string)
    requires forall i | 0 <= i < |s| :: IsDigit(s[i])
    ensures Count(l, s) == |s|
  {
    if s != "" {
      CountDigits(l, s[..|s| - 1]);
    }
  }

  lemma CountLocalDigit(l: Locale, c: char, n: nat, i: nat)
    requires IsDigit(c)
    ensures Count(l, LocalDigit(l, c, n, i)) == 1
  {
    var d := [l.digits[DigitValue(c)]];
    assert d[..0] == "" && d[0] in l.digits;
    CountNone(l, l.group);
    CountAppend(l, if l.breaks(n, i) then l.group else "", d);
  }

  lemma {:induction false} CountLocalized(l: Locale, s: string, n: nat)
    requires forall i | 0 <= i < |s| :: IsDigit(s[i])
    ensures Count(l, LocalizedFrom(l, s, n)) == |s|
  {
    assert Count(l, "") == 0;
    if s != "" {
      hide Count, LocalDigit, IsDigit;
      var k := |s| - 1;
      CountLocalized(l, s[..k], n);
      CountLocalDigit(l, s[k], n, k);
      CountAppend(l, LocalizedFrom(l, s[..k], n), LocalDigit(l, s[k], n, k));
    }
  }

  /** Digits of one length are localized to one length, and only equal ones to the same text. */
  lemma {:induction false} LocalizedApart(l: Locale, s: string, t: string, n: nat)
    requires |s| == |t|
    requires forall i | 0 <= i < |s| :: IsDigit(s[i]) && IsDigit(t[i])
    ensures |LocalizedFrom(l, s, n)| == |LocalizedFrom(l, t, n)|
    ensures LocalizedFrom(l, s, n) == LocalizedFrom(l, t, n) ==> s == t
  {
    if s != "" {
      var k := |s| - 1;
      LocalizedApart(l, s[..k], t[..k], n);
      var a, b := LocalizedFrom(l, s[..k], n), LocalizedFrom(l, t[..k], n);
      var x, y := LocalDigit(l, s[k], n, k), LocalDigit(l, t[k], n, k);
      assert |x| == |y| && x[|x| - 1] == l.digits[DigitValue(s[k])] && y[|y| - 1] == l.digits[DigitValue(t[k])];
      hide LocalDigit;
      if a + x == b + y {
        CutAt(a, x, b, y);
        assert s[k] == t[k];
        assert s == s[..k] + [s[k]] && t == t[..k] + [t[k]];
      }
    }
  }

  lemma CutAt(a: string, x: string, b: string, y: string)
    requires |a| == |b| && a + x == b + y
    ensures a == b && x == y
  {
    assert a == (a + x)[..|a|] && b == (b + y)[..|a|];
    assert x == (a + x)[|a|..] && y == (b + y)[|a|..];
  }

  // ------------------------------------------------------------------ place markers

  /** A template, read from the left: single characters and place markers. */
  datatype Piece = Plain(c: char) | Marker(number: nat, localized: bool, text: string)

  /** The marker a text starts with: '%', perhaps 'L', and one or two digits. */
  function MarkerAt(s: string): (m: Option<Piece>)
    ensures m.Some? ==> m.value.Marker? && m.value.text != "" && m.value.text <= s
  {
    var p := if |s| >= 2 && s[1] == 'L' then 2 else 1;
    if |s| <= p || s[0] != '%' || !IsDigit(s[p]) then None
    else if p + 1 < |s| && IsDigit(s[p + 1])
    then Some(Marker(10 * DigitValue(s[p]) + DigitValue(s[p + 1]), p == 2, s[..p + 2]))
    else Some(Marker(DigitValue(s[p]), p == 2, s[..p + 1]))
  }

  function Pieces(s: string): seq<Piece> {
    if s == "" then [] else
    match MarkerAt(s)
    case None => [Plain(s[0])] + Pieces(s[1..])
    case Some(m) => [m] + Pieces(s[|m.text|..])
  }

  predicate HasMarker(ps: seq<Piece>) {
    exists i | 0 <= i < |ps| :: ps[i].Marker?
  }

  /** The lowest number of a marker, or `low` when none is lower. */
  function Lowest(ps: seq<Piece>, low: nat): nat {
    if ps == [] then low
    else if ps[0].Marker? && ps[0].number < low then Lowest(ps[1..], ps[0].number)
    else Lowest(ps[1..], low)
  }

  predicate IsLow(p: Piece, low: nat) {
    p.Marker? && p.number == low
  }

  function PieceText(p: Piece): string {
    match p
    case Plain(c) => [c]
    case Marker(_, _, text) => text
  }

  /** The template with every marker of the number `low` filled in. */
  function Fill(ps: seq<Piece>, low: nat, arg: string, localArg: string): string {
    if ps == [] then "" else
    (if IsLow(ps[0], low) then (if ps[0].localized then localArg else arg) else PieceText(ps[0]))
    + Fill(ps[1..], low, arg, localArg)
  }

  /** QString::arg: the lowest marker is filled in wherever it occurs. */
  function Arg(template: string, arg: string, localArg: string): string {
    var ps := Pieces(template);
    Fill(ps, Lowest(ps, 100), arg, localArg)
  }

  lemma {:induction false} LowestIsLow(ps: seq<Piece>, low: nat)
    ensures Lowest(ps, low) <= low
    ensures Lowest(ps, low) == low || exists i | 0 <= i < |ps| :: IsLow(ps[i], Lowest(ps, low))
    ensures forall i | 0 <= i < |ps| && ps[i].Marker? :: Lowest(ps, low) <= ps[i].number
  {
    if ps != [] {
      var next := if ps[0].Marker? && ps[0].number < low then ps[0].number else low;
      LowestIsLow(ps[1..], next);
      assert ps == [ps[0]] + ps[1..];
      assert forall i | 0 <= i < |ps[1..]| :: ps[1..][i] == ps[i + 1];
      if Lowest(ps, low) != low {
        if Lowest(ps, low) == next {
          assert IsLow(ps[0], next);
        } else {
          var i :| 0 <= i < |ps[1..]| && IsLow(ps[1..][i], Lowest(ps, low));
          assert IsLow(ps[i + 1], Lowest(ps, low));
        }
      }
    }
  }

  lemma {:induction false} MarkersBelow100(s: string)
    ensures forall i | 0 <= i < |Pieces(s)| && Pieces(s)[i].Marker? :: Pieces(s)[i].number < 100
  {
    if s != "" {
      match MarkerAt(s)
      case None => MarkersBelow100(s[1..]);
      case Some(m) => MarkersBelow100(s[|m.text|..]);
    }
  }

  // ------------------------------------------------------------------ filling tells numbers apart

  /** Digit characters of a filled template, when what is filled in has `n` of them. */
  function Weight(l: Locale, ps: seq<Piece>, low: nat, n: nat): nat {
    if ps == [] then 0 else
    (if IsLow(ps[0], low) then n else Count(l, PieceText(ps[0]))) + Weight(l, ps[1..], low, n)
  }

  lemma {:induction false} FillWeighs(l: Locale, ps: seq<Piece>, low: nat, arg: string, localArg: string, n: nat)
    requires Count(l, arg) == n && Count(l, localArg) == n
    ensures Count(l, Fill(ps, low, arg, localArg)) == Weight(l, ps, low, n)
  {
    if ps != [] {
      hide Count, PieceText;
      FillWeighs(l, ps[1..], low, arg, localArg, n);
      var head := if IsLow(ps[0], low) then (if ps[0].localized then localArg else arg) else PieceText(ps[0]);
      CountAppend(l, head, Fill(ps[1..], low, arg, localArg));
    } else {
      assert Count(l, "") == 0;
    }
  }

  predicate HasLow(ps: seq<Piece>, low: nat) {
    exists i | 0 <= i < |ps| :: IsLow(ps[i], low)
  }

  lemma LowCons(ps: seq<Piece>, low: nat)
    requires ps != []
    ensures HasLow(ps, low) <==> IsLow(ps[0], low) || HasLow(ps[1..], low)
  {
    if HasLow(ps[1..], low) {
      var i :| 0 <= i < |ps[1..]| && IsLow(ps[1..][i], low);
      assert IsLow(ps[i + 1], low);
    }
    if HasLow(ps, low) && !IsLow(ps[0], low) {
      var i :| 0 <= i < |ps| && IsLow(ps[i], low);
      assert IsLow(ps[1..][i - 1], low);
    }
  }

  lemma {:induction false} WeightGrows(l: Locale, ps: seq<Piece>, low: nat, m: nat, n: nat)
    requires m < n
    ensures Weight(l, ps, low, m) <= Weight(l, ps, low, n)
    ensures HasLow(ps, low) ==> Weight(l, ps, low, m) < Weight(l, ps, low, n)
  {
    if ps != [] {
      hide Count, PieceText, HasLow;
      LowCons(ps, low);
      WeightGrows(l, ps[1..], low, m, n);
    }
  }

  /** Fillings of the same lengths that give the same text agree in what the first marker takes. */
  lemma {:induction false} FillApart(ps: seq<Piece>, low: nat, a: string, localA: string, b: string, localB: string)
    requires |a| == |b| && |localA| == |localB|
    requires HasLow(ps, low) && Fill(ps, low, a, localA) == Fill(ps, low, b, localB)
    ensures a == b || localA == localB
  {
    hide HasLow, PieceText;
    if ps == [] {
      NoLow(low);
    } else {
      LowCons(ps, low);
      var rest := ps[1..];
      if IsLow(ps[0], low) {
        CutAt(if ps[0].localized then localA else a, Fill(rest, low, a, localA),
              if ps[0].localized then localB else b, Fill(rest, low, b, localB));
      } else {
        CutAt(PieceText(ps[0]), Fill(rest, low, a, localA), PieceText(ps[0]), Fill(rest, low, b, localB));
        FillApart(rest, low, a, localA, b, localB);
      }
    }
  }

  lemma NoLow(low: nat)
    ensures !HasLow([], low)
  {}

  /** Any template with a marker, filled with two numbers, gives two texts. */
  lemma ArgTellsApart(l: Locale, template: string, m: nat, n: nat)
    requires HasMarker(Pieces(template))
    requires Arg(template, Digits(m), Localized(l, m)) == Arg(template, Digits(n), Localized(l, n))
    ensures m == n
  {
    var ps := Pieces(template);
    var low := Lowest(ps, 100);
    LowestIsLow(ps, 100);
    MarkersBelow100(template);
    assert HasLow(ps, low);
    hide HasLow, HasMarker, Digits, Fill, Pieces;
    var s, t := Digits(m), Digits(n);
    CountDigits(l, s);
    CountDigits(l, t);
    CountLocalized(l, s, |s|);
    CountLocalized(l, t, |t|);
    FillWeighs(l, ps, low, s, Localized(l, m), |s|);
    FillWeighs(l, ps, low, t, Localized(l, n), |t|);
    if |s| < |t| {
      WeightGrows(l, ps, low, |s|, |t|);
    } else if |t| < |s| {
      WeightGrows(l, ps, low, |t|, |s|);
    } else {
      LocalizedApart(l, s, t, |s|);
      FillApart(ps, low, s, Localized(l, m), t, Localized(l, n));
      DigitsInjective(m, n);
    }
  }

  // ------------------------------------------------------------------ the numbered alias

  /** QStringLiteral("%1 %2").arg(alias).arg(n). */
  function Numbered(l: Locale, alias: string, n: nat): string {
    Arg(Arg("%1 %2", alias, alias), Digits(n), Localized(l, n))
  }

  lemma FirstPieces()
    ensures Pieces("%1 %2") == [Marker(1, false, "%1"), Plain(' '), Marker(2, false, "%2")]
  {
    var one, two := Marker(1, false, "%1"), Marker(2, false, "%2");
    var t := "%1 %2";
    assert MarkerAt(t) == Some(one) by { assert t[..2] == "%1"; }
    assert t[2..] == " %2" && " %2"[1..] == "%2";
    assert MarkerAt("%2") == Some(two) by { assert "%2"[..2] == "%2"; }
    assert "%2"[2..] == "";
    assert Pieces("%2") == [two];
    assert Pieces(" %2") == [Plain(' '), two];
  }

  /** "%1 %2" filled: its first marker goes, the second stays. */
  lemma FirstFill(arg: string, localArg: string)
    ensures Lowest(Pieces("%1 %2"), 100) == 1 && Fill(Pieces("%1 %2"), 1, arg, localArg) == arg + " %2"
  {
    FirstPieces();
    var two := Marker(2, false, "%2");
    var ps := [Marker(1, false, "%1"), Plain(' '), two];
    assert ps[1..] == [Plain(' '), two] && ps[1..][1..] == [two] && [two][1..] == [];
    assert Lowest([two], 1) == 1;
    assert Lowest(ps[1..], 1) == 1;
    assert Lowest(ps, 100) == 1;
    assert Fill([two], 1, arg, localArg) == "%2" + "";
    assert Fill(ps[1..], 1, arg, localArg) == " " + "%2";
    assert " " + "%2" == " %2";
  }

  lemma FirstArg(alias: string)
    ensures Arg("%1 %2", alias, alias) == alias + " %2"
  {
    hide Pieces, Lowest, Fill;
    FirstFill(alias, alias);
  }

  /** What stands behind every alias: a blank and the second marker. */
  const TAIL: seq<Piece> := [Plain(' '), Marker(2, false, "%2")]

  lemma TailPieces()
    ensures Pieces(" %2") == TAIL
  {
    assert " %2"[1..] == "%2" && "%2"[..2] == "%2" && "%2"[2..] == "";
    assert Pieces("%2") == [Marker(2, false, "%2")];
  }

  /** A blank belongs to no marker. */
  lemma MarkerBeforeTail(s: string)
    requires s != ""
    ensures MarkerAt(s + " %2") == MarkerAt(s)
  {
    var t := s + " %2";
    assert forall i | 0 <= i < |s| :: t[i] == s[i];
    assert forall i | 0 <= i <= |s| :: t[..i] == s[..i];
    assert t[|s|] == ' ' && t[|s| + 1] == '%';
  }

  lemma {:induction false} PiecesBeforeTail(s: string)
    ensures Pieces(s + " %2") == Pieces(s) + TAIL
  {
    if s == "" {
      TailPieces();
      assert s + " %2" == " %2" && [] + TAIL == TAIL;
    } else {
      MarkerBeforeTail(s);
      var n := match MarkerAt(s) case None => 1 case Some(m) => |m.text|;
      var head := match MarkerAt(s) case None => Plain(s[0]) case Some(m) => m;
      PiecesBeforeTail(s[n..]);
      assert (s + " %2")[n..] == s[n..] + " %2" && (s + " %2")[0] == s[0];
      hide MarkerAt, TAIL;
      assert Pieces(s) == [head] + Pieces(s[n..]);
      ConcatAssoc([head], Pieces(s[n..]), TAIL);
    }
  }

  lemma {:induction false} FillAppend(ps: seq<Piece>, qs: seq<Piece>, low: nat, arg: string, localArg: string)
    ensures Fill(ps + qs, low, arg, localArg) == Fill(ps, low, arg, localArg) + Fill(qs, low, arg, localArg)
  {
    if ps == [] {
      assert ps + qs == qs;
    } else {
      FillAppend(ps[1..], qs, low, arg, localArg);
      assert (ps + qs)[1..] == ps[1..] + qs && (ps + qs)[0] == ps[0];
      hide PieceText;
      var head := if IsLow(ps[0], low) then (if ps[0].localized then localArg else arg) else PieceText(ps[0]);
      ConcatAssoc(head, Fill(ps[1..], low, arg, localArg), Fill(qs, low, arg, localArg));
    }
  }

  lemma {:induction false} LowestAppend(ps: seq<Piece>, qs: seq<Piece>, low: nat)
    ensures Lowest(ps + qs, low) == Lowest(qs, Lowest(ps, low))
  {
    if ps == [] {
      assert ps + qs == qs;
    } else {
      LowestAppend(ps[1..], qs, if ps[0].Marker? && ps[0].number < low then ps[0].number else low);
      assert (ps + qs)[1..] == ps[1..] + qs && (ps + qs)[0] == ps[0];
    }
  }

  lemma TailFilled(low: nat, arg: string, localArg: string)
    ensures Lowest(TAIL, low) == if low < 2 then low else 2
    ensures Fill(TAIL, low, arg, localArg) == if low == 2 then " " + arg else " %2"
  {
    var two := [Marker(2, false, "%2")];
    assert TAIL[1..] == two && two[1..] == [];
    assert Lowest(two, low) == if low <= 2 then low else 2;
    assert Fill(two, low, arg, localArg) == (if low == 2 then arg else "%2") + "";
    assert Fill(TAIL, low, arg, localArg) == " " + Fill(two, low, arg, localArg);
    assert " " + "%2" == " %2";
  }

  /** The number goes to the markers of the lowest number: those in the name below 2 alone, or
      else those numbered 2, the one behind the name among them. */
  lemma NumberedIs(l: Locale, alias: string, n: nat)
    ensures var ps := Pieces(alias); var low := Lowest(ps, 100);
            Numbered(l, alias, n) == if low < 2 then Fill(ps, low, Digits(n), Localized(l, n)) + " %2"
                                     else Fill(ps, 2, Digits(n), Localized(l, n)) + " " + Digits(n)
  {
    hide Pieces, Fill, Lowest, Digits, Localized, TAIL;
    var ps, low := Pieces(alias), Lowest(Pieces(alias), 100);
    var target := if low < 2 then low else 2;
    FirstArg(alias);
    PiecesBeforeTail(alias);
    LowestAppend(ps, TAIL, 100);
    TailFilled(low, Digits(n), Localized(l, n));
    TailFilled(target, Digits(n), Localized(l, n));
    FillAppend(ps, TAIL, target, Digits(n), Localized(l, n));
    ConcatAssoc(Fill(ps, 2, Digits(n), Localized(l, n)), " ", Digits(n));
  }

  lemma TailIsMarked(alias: string)
    ensures HasMarker(Pieces(alias + " %2"))
  {
    PiecesBeforeTail(alias);
    var ps := Pieces(alias) + TAIL;
    assert ps[|Pieces(alias)| + 1].Marker?;
  }

  /** Different numbers make different aliases, for every name in every locale. */
  lemma NumberedTellsApart(l: Locale, alias: string, m: nat, n: nat)
    requires Numbered(l, alias, m) == Numbered(l, alias, n)
    ensures m == n
  {
    hide Arg;
    FirstArg(alias);
    TailIsMarked(alias);
    ArgTellsApart(l, alias + " %2", m, n);
  }

  lemma NumberedInjective(l: Locale, alias: string)
    ensures forall m: nat, n: nat :: Numbered(l, alias, m) == Numbered(l, alias, n) ==> m == n
  {
    hide Numbered;
    forall m: nat, n: nat | Numbered(l, alias, m) == Numbered(l, alias, n) ensures m == n {
      NumberedTellsApart(l, alias, m, n);
    }
  }

  // ------------------------------------------------------------------ which names are numbered as meant

  /** A template no marker of which is filled stays as it is; a marker that is filled loses its
      '%'. */
  lemma {:induction false} FillDropsPercents(s: string, low: nat, arg: string, localArg: string)
    ensures !HasLow(Pieces(s), low) ==> Fill(Pieces(s), low, arg, localArg) == s
    ensures HasLow(Pieces(s), low) && '%' !in arg && '%' !in localArg ==>
              multiset(Fill(Pieces(s), low, arg, localArg))['%'] < multiset(s)['%']
  {
    if s == "" {
      NoLow(low);
    } else {
      var ps, m := Pieces(s), MarkerAt(s);
      var text := if m.None? then [s[0]] else m.value.text;
      MarkerText(s);
      assert s == text + s[|text|..];
      FillDropsPercents(s[|text|..], low, arg, localArg);
      var rest := Fill(Pieces(s[|text|..]), low, arg, localArg);
      LowCons(ps, low);
      assert ps[1..] == Pieces(s[|text|..]) && PieceText(ps[0]) == text;
      hide HasLow, Pieces, MarkerAt, PieceText;
      var head := if IsLow(ps[0], low) then (if ps[0].localized then localArg else arg) else text;
      assert Fill(ps, low, arg, localArg) == head + rest;
      PercentsAppend(head, rest);
      PercentsAppend(text, s[|text|..]);
      SamePercents(rest, s[|text|..]);
    }
  }

  /** A marker has its '%'. */
  lemma MarkerText(s: string)
    requires s != ""
    ensures var m := MarkerAt(s); m.Some? ==> multiset(m.value.text)['%'] > 0
  {
    if MarkerAt(s).Some? {
      assert MarkerAt(s).value.text[0] == '%';
    }
  }

  lemma PercentsAppend(a: string, b: string)
    ensures multiset(a + b)['%'] == multiset(a)['%'] + multiset(b)['%']
  {}

  lemma SamePercents(a: string, b: string)
    ensures a == b ==> multiset(a)['%'] == multiset(b)['%']
  {}

  /** Every marker of the template is numbered 3 or more. */
  predicate MarkersAbove2(ps: seq<Piece>) {
    forall i | 0 <= i < |ps| && ps[i].Marker? :: ps[i].number > 2
  }

  lemma AboveIsUnfilled(alias: string)
    ensures var ps := Pieces(alias); MarkersAbove2(ps) <==> Lowest(ps, 100) >= 2 && !HasLow(ps, 2)
  {
    LowestIsLow(Pieces(alias), 100);
    MarkersBelow100(alias);
    hide Pieces, Lowest;
  }

  /** A name is numbered by a blank and the number if it holds no marker numbered 2 or less, and
      only if, unless the locale writes that number with a '%'. */
  lemma OrdinaryAliasIff(l: Locale, alias: string, n: nat)
    ensures MarkersAbove2(Pieces(alias)) ==> Numbered(l, alias, n) == alias + " " + Digits(n)
    ensures '%' !in Localized(l, n) ==>
              (Numbered(l, alias, n) == alias + " " + Digits(n) <==> MarkersAbove2(Pieces(alias)))
  {
    var ps, low, d := Pieces(alias), Lowest(Pieces(alias), 100), Digits(n);
    NumberedIs(l, alias, n);
    AboveIsUnfilled(alias);
    FillDropsPercents(alias, 2, d, Localized(l, n));
    EndsApart(Fill(ps, low, d, Localized(l, n)), alias, d);
    SamePercents(Fill(ps, 2, d, Localized(l, n)), alias);
    SameFront(Fill(ps, 2, d, Localized(l, n)) + " ", alias + " ", d);
    SameFront(Fill(ps, 2, d, Localized(l, n)), alias, " ");
    hide *;
  }

  /** So a name without '%' is numbered by a blank and the number, in every locale. */
  lemma OrdinaryAlias(l: Locale, alias: string, n: nat)
    requires '%' !in alias
    ensures Numbered(l, alias, n) == alias + " " + Digits(n)
  {
    NoPercentNoMarker(alias);
    OrdinaryAliasIff(l, alias, n);
  }

  lemma {:induction false} NoPercentNoMarker(s: string)
    requires '%' !in s
    ensures MarkersAbove2(Pieces(s))
  {
    if s != "" {
      NoPercentNoMarker(s[1..]);
      assert s[0] in s;
    }
  }

  /** A text that ends with the unfilled marker does not end with a number. */
  lemma EndsApart(a: string, b: string, digits: string)
    requires digits != "" && forall i | 0 <= i < |digits| :: IsDigit(digits[i])
    ensures a + " %2" != b + " " + digits
  {
    var x, y := a + " %2", b + " " + digits;
    assert x[|x| - 2] == '%';
    assert y[|y| - 2] == if |digits| == 1 then ' ' else digits[|digits| - 2];
  }

  lemma SameFront(a: string, b: string, c: string)
    ensures a + c == b + c ==> a == b
  {
    assert a == (a + c)[..|a|] && b == (b + c)[..|b|];
    assert |a| - |b| == |a + c| - |b + c|;
  }

  /** So "a%1" becomes "a2 %2": the name's marker takes the number. And "a%3" becomes "a%3 2". */
  lemma MarkedAliases(l: Locale, c: char, n: nat)
    requires c != '%'
    ensures Numbered(l, [c] + "%1", n) == [c] + Digits(n) + " %2"
    ensures Numbered(l, [c] + "%3", n) == [c] + "%3 " + Digits(n)
  {
    OneMarker(c, '1', Digits(n), Localized(l, n));
    OneMarker(c, '3', Digits(n), Localized(l, n));
    NumberedIs(l, [c, '%', '1'], n);
    NumberedIs(l, [c, '%', '3'], n);
    hide *;
    assert [c] + "%1" == [c, '%', '1'];
    assert [c] + "%3" == [c] + ['%', '3'] == [c, '%', '3'];
    assert [c] + "%3" + " " == [c] + "%3 ";
  }

  lemma OneMarker(c: char, d: char, arg: string, localArg: string)
    requires IsDigit(d)
    ensures var ps, low := Pieces([c, '%', d]), DigitValue(d);
            && Lowest(ps, 100) == low
            && Fill(ps, low, arg, localArg) == [c] + arg
            && (low != 2 ==> Fill(ps, 2, arg, localArg) == [c] + ['%', d])
  {
    var marker := Marker(DigitValue(d), false, ['%', d]);
    assert [c, '%', d][1..] == ['%', d] && ['%', d][..2] == ['%', d] && ['%', d][2..] == "";
    assert Pieces(['%', d]) == [marker];
    var ps := [Plain(c), marker];
    assert Pieces([c, '%', d]) == ps;
    assert ps[1..] == [marker] && [marker][1..] == [];
    assert Lowest([marker], 100) == DigitValue(d);
    assert Fill([marker], DigitValue(d), arg, localArg) == arg + "";
    assert DigitValue(d) != 2 ==> Fill([marker], 2, arg, localArg) == ['%', d] + "";
  }
}
