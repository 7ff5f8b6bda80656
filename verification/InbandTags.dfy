/**
  The in-band tool-call tags of the Ollama stream (backend/api/ollama-provider.cpp): what a
  whole text means, what one delta does with the text held back so far, and that deltas
  scanned one after the other mean what the whole text means.
 */
module InbandTags {
  import opened Common

  const OPEN: string := "<|tool_call|>"
  const CLOSE: string := "</|tool_call|>"

  /** The proper prefixes of the open tag, shortest first. */
  const PREFIXES: seq<string> := [
    "<", "<|", "<|t", "<|to", "<|too", "<|tool", "<|tool_", "<|tool_c", "<|tool_ca", "<|tool_cal", "<|tool_call",
    "<|tool_call|"]

  lemma PrefixesOfOpen(i: nat)
    requires i < |PREFIXES|
    ensures |PREFIXES| == |OPEN| - 1 && PREFIXES[i] == OPEN[..i + 1]
  {
  }

  // ------------------------------------------------------------------ finding

  predicate OccursAt(s: string, tag: string, k: int) {
    0 <= k && k + |tag| <= |s| && s[k..k + |tag|] == tag
  }

  /** The first place at or after `from` where `tag` occurs. */
  function FindFrom(s: string, tag: string, from: nat): (r: Option<nat>)
    requires from <= |s|
    ensures r.Some? ==> from <= r.value && r.value + |tag| <= |s|
    ensures r.Some? ==> OccursAt(s, tag, r.value) && forall k | from <= k < r.value :: !OccursAt(s, tag, k)
    ensures r.None? ==> forall k | from <= k :: !OccursAt(s, tag, k)
    decreases |s| - from
  {
    if OccursAt(s, tag, from) then Some(from)
    else if from == |s| then None
    else FindFrom(s, tag, from + 1)
  }

  function Find(s: string, tag: string): (r: Option<nat>)
    ensures r.Some? ==> r.value + |tag| <= |s|
    ensures r.Some? ==> OccursAt(s, tag, r.value) && forall k | 0 <= k < r.value :: !OccursAt(s, tag, k)
    ensures r.None? ==> forall k | 0 <= k :: !OccursAt(s, tag, k)
  {
    FindFrom(s, tag, 0)
  }

  predicate EndsWith(s: string, t: string) {
    |t| <= |s| && s[|s| - |t|..] == t
  }

  // ------------------------------------------------------------------ what the stream means

  /** The first tag block of a string: none starts, one starts and does not end, or its
      body with the text on either side. */
  datatype Located =
    | NoOpen
    | Unclosed(before: string, rest: string)
    | Block(before: string, body: string, after: string)

  /** Where the first `open` tag is, and the first `close` tag from there on. */
  datatype Spot = NoSpot | OpenAt(i: nat) | BothAt(i: nat, j: nat)

  function FindBlock(s: string, open: string, close: string): (r: Spot)
    ensures !r.NoSpot? ==> Find(s, open) == Some(r.i) && r.i <= |s|
    ensures r.BothAt? ==> Find(s[r.i..], close) == Some(r.j)
  {
    match Find(s, open)
    case None => NoSpot
    case Some(i) =>
      match Find(s[i..], close)
      case None => OpenAt(i)
      case Some(j) => BothAt(i, j)
  }

  function Locate(s: string): (r: Located)
    ensures r.Block? ==> |r.after| < |s|
  {
    match FindBlock(s, OPEN, CLOSE)
    case NoSpot => NoOpen
    case OpenAt(i) => Unclosed(s[..i], s[i..])
    case BothAt(i, j) =>
      OpenStartsSuffix(s, i);
      CloseAfterOpen(s[i..], j);
      Block(s[..i], s[i + |OPEN|..i + j], s[i + j + |CLOSE|..])
  }

  lemma CharAt(s: string, tag: string, k: nat, m: nat)
    requires OccursAt(s, tag, k) && m < |tag|
    ensures s[k + m] == tag[m]
  {
    assert s[k..k + |tag|][m] == s[k + m];
  }

  lemma LessThanOnlyInFront(k: nat)
    requires 0 < k < |OPEN|
    ensures OPEN[k] != '<'
  {
  }

  lemma OpenStartsSuffix(s: string, i: nat)
    requires OccursAt(s, OPEN, i)
    ensures OccursAt(s[i..], OPEN, 0)
  {
    assert s[i..][0..|OPEN|] == s[i..i + |OPEN|];
  }

  /** The close tag never starts inside the open tag. */
  lemma CloseAfterOpen(s: string, j: nat)
    requires OccursAt(s, OPEN, 0) && OccursAt(s, CLOSE, j)
    ensures |OPEN| <= j
  {
    if j == 0 {
      CharAt(s, OPEN, 0, 1);
      CharAt(s, CLOSE, 0, 1);
    } else if j < |OPEN| {
      LessThanOnlyInFront(j);
      CharAt(s, OPEN, 0, j);
      CharAt(s, CLOSE, j, 0);
    }
  }

  /** What `Locate` returns is the whole string, cut. */
  lemma LocateCuts(s: string)
    ensures match Locate(s)
            case NoOpen => Find(s, OPEN).None?
            case Unclosed(before, rest) => s == before + rest && Find(rest, CLOSE).None?
            case Block(before, body, after) => s == before + OPEN + body + CLOSE + after
  {
    hide Find, FindFrom;
    match FindBlock(s, OPEN, CLOSE)
    case NoSpot =>
    case OpenAt(i) =>
    case BothAt(i, j) =>
      OpenStartsSuffix(s, i);
      CloseAfterOpen(s[i..], j);
      BlockSplits(s, OPEN, CLOSE, i, j);
  }

  lemma BlockSplits(s: string, open: string, close: string, i: nat, j: nat)
    requires OccursAt(s, open, i) && OccursAt(s[i..], close, j) && |open| <= j
    ensures i + j + |close| <= |s|
    ensures s == s[..i] + open + s[i + |open|..i + j] + close + s[i + j + |close|..]
  {
    assert s[i + j..i + j + |close|] == s[i..][j..j + |close|];
    assert s == s[..i] + s[i..i + |open|] + s[i + |open|..i + j] + s[i + j..i + j + |close|] + s[i + j + |close|..];
  }

  /** Text and tool-call bodies of a complete message. */
  datatype Parsed = Parsed(text: string, bodies: seq<string>)

  /** One pass over the whole message: complete tag blocks come out, everything else,
      an unclosed block included, stays. */
  function Parse(s: string): Parsed
    decreases |s|
  {
    match Locate(s)
    case NoOpen => Parsed(s, [])
    case Unclosed(_, _) => Parsed(s, [])
    case Block(before, body, after) =>
      var rest := Parse(after);
      Parsed(before + rest.text, [body] + rest.bodies)
  }

  /** A block whose tags are the first to occur is taken out, and nothing else is. */
  lemma {:induction false} ParseOfBlock(before: string, body: string, after: string)
    requires Find(before + OPEN, OPEN) == Some(|before|)
    requires Find(body + CLOSE, CLOSE) == Some(|body|)
    ensures var rest := Parse(after);
            Parse(before + OPEN + body + CLOSE + after) == Parsed(before + rest.text, [body] + rest.bodies)
  {
    hide *;
    var x := body + CLOSE + after;
    var s := before + OPEN + body + CLOSE + after;
    FoundStays(before + OPEN, x, OPEN);
    FirstClose(body, after);
    JoinedBlock(before, OPEN, body, CLOSE, after);
    FindBlockIs(s, OPEN, CLOSE, |before|, |OPEN| + |body|);
    LocateIs(s, |before|, |OPEN| + |body|);
    ParseBlockIs(s, before, body, after);
  }

  lemma JoinedBlock(before: string, open: string, body: string, close: string, after: string)
    ensures var s := before + open + body + close + after; var n := |before| + |open|;
            && s == (before + open) + (body + close + after)
            && s[|before|..] == open + (body + close + after)
            && s[..|before|] == before && s[n..n + |body|] == body && s[n + |body| + |close|..] == after
  {
    var s, x, n := before + open + body + close + after, body + close + after, |before| + |open|;
    ConcatAssoc(before + open, body, close);
    ConcatAssoc(before + open, body + close, after);
    ConcatAssoc(before, open, x);
    assert s[n..] == x;
    assert s[n..n + |body|] == x[..|body|] && s[n + |body| + |close|..] == x[|body| + |close|..];
  }

  lemma FirstClose(body: string, after: string)
    requires Find(body + CLOSE, CLOSE) == Some(|body|)
    ensures Find(OPEN + (body + CLOSE + after), CLOSE) == Some(|OPEN| + |body|)
  {
    hide Find, FindFrom, OccursAt;
    var x := body + CLOSE + after;
    FoundStays(body + CLOSE, after, CLOSE);
    OpenInFront(x);
    forall k | 0 <= k < |OPEN| ensures !OccursAt(OPEN + x, CLOSE, k) {
      if OccursAt(OPEN + x, CLOSE, k) {
        CloseAfterOpen(OPEN + x, k);
      }
    }
    FindShifted(OPEN, x, CLOSE);
  }

  lemma OpenInFront(x: string)
    ensures OccursAt(OPEN + x, OPEN, 0)
  {
    assert (OPEN + x)[0..|OPEN|] == OPEN;
  }

  lemma FindBlockIs(s: string, open: string, close: string, i: nat, j: nat)
    requires i <= |s| && Find(s, open) == Some(i) && Find(s[i..], close) == Some(j)
    ensures FindBlock(s, open, close) == BothAt(i, j)
  {
  }

  lemma LocateIs(s: string, i: nat, j: nat)
    requires FindBlock(s, OPEN, CLOSE) == BothAt(i, j) && |OPEN| <= j && i + j + |CLOSE| <= |s|
    ensures Locate(s) == Block(s[..i], s[i + |OPEN|..i + j], s[i + j + |CLOSE|..])
  {
  }

  lemma ParseBlockIs(s: string, before: string, body: string, after: string)
    requires Locate(s) == Block(before, body, after)
    ensures Parse(s) == Parsed(before + Parse(after).text, [body] + Parse(after).bodies)
  {
  }

  // ------------------------------------------------------------------ what one delta does

  /** How much of the tail may be the start of an open tag. */
  function Held(b: string): (h: nat)
    ensures h <= |b|
  {
    HeldFrom(b, 1)
  }

  /** The first prefix tried that fits is the one held back. */
  lemma HeldIs(b: string, n: nat)
    requires 1 <= n < |OPEN| && EndsWith(b, OPEN[..n])
    ensures Held(b) == n
  {
    HeldIsLongest(b);
    HeldIsUnique(b, n);
    hide Held, HeldFrom, EndsWith;
    if 0 < Held(b) < n {
      HeldIsUnique(b, Held(b));
    }
  }

  lemma {:induction false} HeldIsLongest(b: string)
    ensures Held(b) < |OPEN|
    ensures Held(b) > 0 ==> EndsWith(b, OPEN[..Held(b)])
    ensures forall k | Held(b) < k < |OPEN| :: !EndsWith(b, OPEN[..k])
  {
    hide HeldFrom, EndsWith;
  }

  function HeldFrom(b: string, n: nat): (h: nat)
    requires 1 <= n <= |OPEN|
    ensures h <= |b| && h < |OPEN|
    ensures h > 0 ==> n <= h && EndsWith(b, OPEN[..h]) && forall k | n <= k < h :: !EndsWith(b, OPEN[..k])
    ensures h == 0 ==> forall k | n <= k < |OPEN| :: !EndsWith(b, OPEN[..k])
    ensures h > 0 ==> forall k | h < k < |OPEN| :: !EndsWith(b, OPEN[..k])
    decreases |OPEN| - n
  {
    if n == |OPEN| then 0
    else if EndsWith(b, OPEN[..n]) then HeldIsUnique(b, n); n
    else HeldFrom(b, n + 1)
  }

  /** '<' occurs in the open tag only in front, so no longer prefix ends where a shorter
      one does: the order in which the prefixes are tried does not matter. */
  lemma HeldIsUnique(b: string, n: nat)
    requires 1 <= n < |OPEN| && EndsWith(b, OPEN[..n])
    ensures forall k | n < k < |OPEN| :: !EndsWith(b, OPEN[..k])
  {
    TailChar(b, n, 0);
    forall k | n < k < |OPEN| ensures !EndsWith(b, OPEN[..k]) {
      LessThanOnlyInFront(k - n);
      if EndsWith(b, OPEN[..k]) {
        TailChar(b, k, k - n);
      }
    }
  }

  lemma TailChar(b: string, k: nat, m: nat)
    requires m < k < |OPEN| && EndsWith(b, OPEN[..k])
    ensures b[|b| - k + m] == OPEN[m]
  {
    assert b[|b| - k..][m] == OPEN[..k][m];
  }

  datatype Scanned = Scanned(text: string, bodies: seq<string>, rest: string)

  /** Draining the buffer once: what is flushed, what is extracted, what is kept. */
  function Scan(b: string): Scanned
    decreases |b|
  {
    match Locate(b)
    case NoOpen => var safe := |b| - Held(b); Scanned(b[..safe], [], b[safe..])
    case Unclosed(before, rest) => Scanned(before, [], rest)
    case Block(before, body, after) =>
      var r := Scan(after);
      Scanned(before + r.text, [body] + r.bodies, r.rest)
  }

  /** What was drained before, in front of what a drain gives. */
  function Before(text: string, bodies: seq<string>, sc: Scanned): Scanned {
    Scanned(text + sc.text, bodies + sc.bodies, sc.rest)
  }

  lemma BeforeNothing(sc: Scanned)
    ensures Before("", [], sc) == sc
  {
    assert "" + sc.text == sc.text && [] + sc.bodies == sc.bodies;
  }

  /** One turn of the drain. */
  lemma {:induction false} ScanTurn(text: string, bodies: seq<string>, b: string)
    ensures match Locate(b)
            case NoOpen =>
              Before(text, bodies, Scan(b)) == Scanned(text + b[..|b| - Held(b)], bodies, b[|b| - Held(b)..])
            case Unclosed(before, rest) => Before(text, bodies, Scan(b)) == Scanned(text + before, bodies, rest)
            case Block(before, body, after) =>
              Before(text, bodies, Scan(b)) == Before(text + before, bodies + [body], Scan(after))
  {
    hide Locate, Held;
    match Locate(b)
    case NoOpen =>
    case Unclosed(_, _) =>
    case Block(before, body, after) =>
      ConcatAssoc(text, before, Scan(after).text);
      ConcatAssoc(bodies, [body], Scan(after).bodies);
  }

  // ------------------------------------------------------------------ scanning is parsing

  lemma OccursShifted(u: string, x: string, tag: string, k: nat)
    ensures OccursAt(u + x, tag, |u| + k) <==> OccursAt(x, tag, k)
  {
    if k + |tag| <= |x| {
      assert (u + x)[|u| + k..|u| + k + |tag|] == x[k..k + |tag|];
    }
  }

  lemma OccursInFront(b: string, c: string, tag: string, k: nat)
    requires k + |tag| <= |b|
    ensures OccursAt(b + c, tag, k) <==> OccursAt(b, tag, k)
  {
    assert (b + c)[k..k + |tag|] == b[k..k + |tag|];
  }

  lemma FindShifted(u: string, x: string, tag: string)
    requires forall k | 0 <= k < |u| :: !OccursAt(u + x, tag, k)
    ensures match Find(x, tag)
            case None => Find(u + x, tag) == None
            case Some(i) => Find(u + x, tag) == Some(|u| + i)
  {
    hide *;
    match Find(x, tag)
    case None =>
      forall k | |u| <= k ensures !OccursAt(u + x, tag, k) {
        OccursShifted(u, x, tag, k - |u|);
      }
    case Some(i) =>
      forall k | |u| <= k < |u| + i ensures !OccursAt(u + x, tag, k) {
        OccursShifted(u, x, tag, k - |u|);
      }
      OccursShifted(u, x, tag, i);
      FindIs(u + x, tag, |u| + i);
  }

  lemma FindIs(s: string, tag: string, i: nat)
    requires OccursAt(s, tag, i)
    requires forall k | 0 <= k < i :: !OccursAt(s, tag, k)
    ensures Find(s, tag) == Some(i)
  {
    hide *;
  }

  lemma FindBlockShifted(u: string, x: string, open: string, close: string)
    requires forall k | 0 <= k < |u| :: !OccursAt(u + x, open, k)
    ensures match FindBlock(x, open, close)
            case NoSpot => FindBlock(u + x, open, close) == NoSpot
            case OpenAt(i) => FindBlock(u + x, open, close) == OpenAt(|u| + i)
            case BothAt(i, j) => FindBlock(u + x, open, close) == BothAt(|u| + i, j)
  {
    hide OccursAt, Find, FindFrom;
    FindShifted(u, x, open);
    match Find(x, open)
    case None =>
    case Some(i) => assert (u + x)[|u| + i..] == x[i..];
  }

  /** Text with no open tag starting in it passes straight through. */
  lemma LocateSkip(u: string, x: string)
    requires forall k | 0 <= k < |u| :: !OccursAt(u + x, OPEN, k)
    ensures match Locate(x)
            case NoOpen => Locate(u + x) == NoOpen
            case Unclosed(before, rest) => Locate(u + x) == Unclosed(u + before, rest)
            case Block(before, body, after) => Locate(u + x) == Block(u + before, body, after)
  {
    hide OccursAt, Find, FindFrom, FindBlock;
    FindBlockShifted(u, x, OPEN, CLOSE);
    match FindBlock(x, OPEN, CLOSE)
    case NoSpot =>
    case OpenAt(i) => Shift(u, x, i);
    case BothAt(i, j) =>
      OpenStartsSuffix(x, i);
      CloseAfterOpen(x[i..], j);
      Shift(u, x, i);
      Shift(u, x, i + j + |CLOSE|);
      assert (u + x)[|u| + i + |OPEN|..|u| + i + j] == x[i + |OPEN|..i + j];
  }

  lemma Shift(u: string, x: string, i: nat)
    requires i <= |x|
    ensures (u + x)[..|u| + i] == u + x[..i] && (u + x)[|u| + i..] == x[i..]
  {
  }

  lemma ParseSkip(u: string, x: string)
    requires forall k | 0 <= k < |u| :: !OccursAt(u + x, OPEN, k)
    ensures Parse(u + x) == Parsed(u + Parse(x).text, Parse(x).bodies)
  {
    LocateSkip(u, x);
    match Locate(x)
    case NoOpen =>
    case Unclosed(_, _) =>
    case Block(before, _, after) => ConcatAssoc(u, before, Parse(after).text);
  }

  /** A tag found in the buffer is found in the same place whatever comes behind. */
  lemma FoundStays(b: string, c: string, tag: string)
    requires Find(b, tag).Some?
    ensures Find(b + c, tag) == Find(b, tag)
  {
    hide *;
    var i := Find(b, tag).value;
    OccursInFront(b, c, tag, i);
    forall k | 0 <= k < i ensures !OccursAt(b + c, tag, k) {
      if k + |tag| <= |b| {
        OccursInFront(b, c, tag, k);
      }
    }
  }

  lemma FindBlockStays(b: string, c: string, open: string, close: string)
    requires FindBlock(b, open, close).BothAt?
    ensures FindBlock(b + c, open, close) == FindBlock(b, open, close)
  {
    hide OccursAt, Find, FindFrom;
    FoundStays(b, c, open);
    var i := Find(b, open).value;
    assert (b + c)[i..] == b[i..] + c;
    FoundStays(b[i..], c, close);
  }

  /** A block found in the buffer is found there whatever comes behind. */
  lemma BlockStays(b: string, c: string)
    requires Locate(b).Block?
    ensures Locate(b + c) == Block(Locate(b).before, Locate(b).body, Locate(b).after + c)
  {
    hide OccursAt, Find, FindFrom, FindBlock;
    FindBlockStays(b, c, OPEN, CLOSE);
    var r := FindBlock(b, OPEN, CLOSE);
    OpenStartsSuffix(b, r.i);
    CloseAfterOpen(b[r.i..], r.j);
    Keep(b, c, 0, r.i);
    Keep(b, c, r.i + |OPEN|, r.i + r.j);
    var n := r.i + r.j + |CLOSE|;
    assert (b + c)[n..] == b[n..] + c;
  }

  lemma Keep(b: string, c: string, i: nat, j: nat)
    requires i <= j <= |b|
    ensures (b + c)[i..j] == b[i..j]
  {
  }

  /** A tag that starts in the buffer and ends behind it leaves the buffer ending with a
      prefix of the tag. */
  lemma StraddlesEnd(b: string, c: string, k: nat)
    requires OccursAt(b + c, OPEN, k) && k < |b| < k + |OPEN|
    ensures EndsWith(b, OPEN[..|b| - k])
  {
    var n := |b| - k;
    assert (b + c)[k..k + |OPEN|][..n] == b[k..];
  }

  /** No open tag can start in what is flushed when the buffer holds none. */
  lemma FlushedIsSafe(b: string, c: string)
    requires Locate(b).NoOpen?
    ensures forall k | 0 <= k < |b| - Held(b) :: !OccursAt(b + c, OPEN, k)
  {
    HeldIsLongest(b);
    forall k | 0 <= k < |b| - Held(b) ensures !OccursAt(b + c, OPEN, k) {
      if k + |OPEN| <= |b| {
        OccursInFront(b, c, OPEN, k);
      } else if OccursAt(b + c, OPEN, k) {
        StraddlesEnd(b, c, k);
      }
    }
  }

  /** Nor in front of the first one. */
  lemma BeforeIsSafe(b: string, c: string)
    requires Locate(b).Unclosed?
    ensures forall k | 0 <= k < |Locate(b).before| :: !OccursAt(b + c, OPEN, k)
  {
    forall k | 0 <= k < |Locate(b).before| ensures !OccursAt(b + c, OPEN, k) {
      OccursInFront(b, c, OPEN, k);
    }
  }

  /** The heart of it: parsing the buffer and everything to come is what draining the
      buffer gives, followed by parsing what it keeps and everything to come. */
  lemma {:induction false} ScanThenParse(b: string, c: string)
    ensures var s := Scan(b); var p := Parse(s.rest + c);
            Parse(b + c) == Parsed(s.text + p.text, s.bodies + p.bodies)
    decreases |b|
  {
    hide Find, FindFrom, FindBlock, Locate, OccursAt;
    match Locate(b)
    case NoOpen =>
      var safe := |b| - Held(b);
      FlushedIsSafe(b, c);
      assert b + c == b[..safe] + (b[safe..] + c);
      ParseSkip(b[..safe], b[safe..] + c);
    case Unclosed(before, rest) =>
      BeforeIsSafe(b, c);
      LocateCuts(b);
      ConcatAssoc(before, rest, c);
      ParseSkip(before, rest + c);
    case Block(before, body, after) =>
      BlockStays(b, c);
      ScanThenParse(after, c);
      var s, p := Scan(after), Parse(Scan(after).rest + c);
      ConcatAssoc(before, s.text, p.text);
      ConcatAssoc([body], s.bodies, p.bodies);
  }

  /** What a drain keeps holds no complete block. */
  lemma {:induction false} RestIsText(b: string)
    ensures Parse(Scan(b).rest) == Parsed(Scan(b).rest, [])
    decreases |b|
  {
    match Locate(b)
    case NoOpen =>
      HeldIsLongest(b);
      assert Find(b[|b| - Held(b)..], OPEN).None?;
    case Unclosed(before, rest) =>
      var i := Find(b, OPEN).value;
      assert OccursAt(rest, OPEN, 0) by { assert rest[0..|OPEN|] == b[i..i + |OPEN|]; }
      assert rest[0..] == rest;
    case Block(_, _, after) => RestIsText(after);
  }

  // ------------------------------------------------------------------ scanning in pieces

  lemma EndsShifted(u: string, x: string, t: string)
    requires |t| <= |x|
    ensures EndsWith(u + x, t) <==> EndsWith(x, t)
  {
    Shift(u, x, |x| - |t|);
  }

  /** What is held back depends on the end alone, unless a longer prefix of the tag ends it. */
  lemma HeldThrough(u: string, x: string)
    requires forall k | |x| < k < |OPEN| :: !EndsWith(u + x, OPEN[..k])
    ensures Held(u + x) == Held(x)
  {
    hide Held, EndsWith;
    HeldIsLongest(x);
    HeldIsLongest(u + x);
    var m, n := Held(u + x), Held(x);
    if n > 0 {
      EndsShifted(u, x, OPEN[..n]);
      HeldIs(u + x, n);
    } else if m > 0 {
      EndsShifted(u, x, OPEN[..m]);
    }
  }

  /** Behind what was flushed, what is held back is what the kept end and the new text say. */
  lemma HeldBehindFlush(b: string, c: string)
    ensures var safe := |b| - Held(b); Held(b[..safe] + (b[safe..] + c)) == Held(b[safe..] + c)
  {
    var safe := |b| - Held(b);
    var u, x := b[..safe], b[safe..] + c;
    assert u + x == b + c;
    HeldIsLongest(b);
    hide Held;
    forall k | |x| < k < |OPEN| ensures !EndsWith(u + x, OPEN[..k]) {
      if EndsWith(b + c, OPEN[..k]) {
        EndsInFront(b, c, k);
      }
    }
    HeldThrough(u, x);
  }

  lemma EndsInFront(b: string, c: string, k: nat)
    requires |c| < k < |OPEN| && EndsWith(b + c, OPEN[..k])
    ensures EndsWith(b, OPEN[..k - |c|])
  {
    assert b[|b| - (k - |c|)..] == (b + c)[|b + c| - k..][..k - |c|];
    assert OPEN[..k][..k - |c|] == OPEN[..k - |c|];
  }

  lemma ScanSkip(u: string, x: string)
    requires forall k | 0 <= k < |u| :: !OccursAt(u + x, OPEN, k)
    requires Locate(x).NoOpen? ==> Held(u + x) == Held(x)
    ensures Scan(u + x) == Before(u, [], Scan(x))
  {
    hide *;
    LocateSkip(u, x);
    ScanTurn("", [], u + x);
    BeforeNothing(Scan(u + x));
    ScanTurn(u, [], x);
    match Locate(x)
    case NoOpen => Shift(u, x, |x| - Held(x));
    case Unclosed(before, _) => assert "" + (u + before) == u + before;
    case Block(before, body, _) => assert "" + (u + before) == u + before && [] + [body] == [body];
  }

  /** Scanning in pieces is scanning the whole: what is kept of a beginning and the rest of
      the text give what the whole gives behind what the beginning gave. */
  lemma {:induction false} ScanAppend(b: string, c: string)
    ensures Scan(b + c) == Before(Scan(b).text, Scan(b).bodies, Scan(Scan(b).rest + c))
    decreases |b|
  {
    hide Find, FindFrom, FindBlock, Locate, OccursAt, Held;
    match Locate(b)
    case NoOpen =>
      var safe := |b| - Held(b);
      FlushedIsSafe(b, c);
      HeldBehindFlush(b, c);
      assert b + c == b[..safe] + (b[safe..] + c);
      ScanSkip(b[..safe], b[safe..] + c);
    case Unclosed(before, rest) =>
      BeforeIsSafe(b, c);
      LocateCuts(b);
      ConcatAssoc(before, rest, c);
      StaysOpen(b, c);
      ScanSkip(before, rest + c);
    case Block(before, body, after) =>
      BlockStays(b, c);
      ScanAppend(after, c);
      var s, p := Scan(after), Scan(Scan(after).rest + c);
      ConcatAssoc(before, s.text, p.text);
      ConcatAssoc([body], s.bodies, p.bodies);
  }

  lemma StaysOpen(b: string, c: string)
    requires Locate(b).Unclosed?
    ensures !Locate(Locate(b).rest + c).NoOpen?
  {
    var i, rest := Find(b, OPEN).value, Locate(b).rest;
    assert (rest + c)[0..|OPEN|] == b[i..i + |OPEN|];
    assert OccursAt(rest + c, OPEN, 0);
  }

  /** Nothing more comes out of what is kept. */
  lemma RestIsKept(b: string)
    ensures Scan(Scan(b).rest) == Scanned("", [], Scan(b).rest)
  {
    ScanAppend(b, "");
    hide Scan;
    assert b + "" == b && Scan(b).rest + "" == Scan(b).rest;
    var again := Scan(Scan(b).rest);
    assert |Scan(b).text + again.text| == |Scan(b).text| && |Scan(b).bodies + again.bodies| == |Scan(b).bodies|;
  }

  /** The text behind the last complete block. */
  function Trailing(b: string): string
    decreases |b|
  {
    match Locate(b)
    case Block(_, _, after) => Trailing(after)
    case _ => b
  }

  /** Nothing is kept if and only if no tag is open at the end, not even in part. */
  lemma {:induction false} NothingKeptIff(b: string)
    ensures Scan(b).rest == "" <==>
            Find(Trailing(b), OPEN).None? && forall n | 1 <= n < |OPEN| :: !EndsWith(Trailing(b), OPEN[..n])
    decreases |b|
  {
    hide Find, FindFrom, EndsWith;
    match Locate(b)
    case NoOpen =>
      LocateCuts(b);
      HeldIsLongest(b);
      hide Held;
      forall n | 1 <= n < |OPEN| && EndsWith(b, OPEN[..n]) ensures Held(b) > 0 {
        HeldIs(b, n);
      }
    case Unclosed(before, rest) =>
      assert Find(b, OPEN).Some? && rest == b[Find(b, OPEN).value..];
      assert rest != "";
    case Block(_, _, after) => NothingKeptIff(after);
  }
}
