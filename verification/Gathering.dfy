/**
  How a provider lays a conversation out as the turns of a request when all results of one
  tool turn must sit in the same user turn: the appendToolResult lambda of
  backend/api/anthropic-provider.cpp and the appendFunctionResponse lambda of
  backend/api/gemini-provider.cpp.

  `R` is a provider's tool result and `O` any other part of a turn.
 */
module Gathering {
  import opened Common

  datatype Part<R, O> = Result(result: R) | Other(other: O)

  datatype Content<R, O> = Plain(text: string) | Parts(parts: seq<Part<R, O>>)

  datatype Turn<R, O> = Turn(role: string, content: Content<R, O>)

  /** What one message of the conversation contributes. */
  datatype Entry<R, O> =
    | Answer(result: R)
    | SaidText(role: string, text: string)
    | SaidParts(role: string, parts: seq<O>)
    | Nothing

  function Others<R, O>(parts: seq<O>): seq<Part<R, O>> {
    seq(|parts|, i requires 0 <= i < |parts| => Other(parts[i]))
  }

  /** An entry as turns on its own: none or one. */
  function Alone<R, O>(entry: Entry<R, O>): seq<Turn<R, O>> {
    match entry
    case Answer(result) => [Turn("user", Parts([Result(result)]))]
    case SaidText(role, text) => [Turn(role, Plain(text))]
    case SaidParts(role, parts) => [Turn(role, Parts(Others(parts)))]
    case Nothing => []
  }

  /** A turn that a further result is added to. */
  predicate TakesResults<R, O>(t: Turn<R, O>) {
    && t.role == "user"
    && t.content.Parts?
    && t.content.parts != []
    && t.content.parts[|t.content.parts| - 1].Result?
  }

  function AppendResult<R, O>(turns: seq<Turn<R, O>>, result: R): seq<Turn<R, O>> {
    if turns != [] && TakesResults(turns[|turns| - 1]) then
      var last := turns[|turns| - 1];
      turns[|turns| - 1 := last.(content := Parts(last.content.parts + [Result(result)]))]
    else turns + [Turn("user", Parts([Result(result)]))]
  }

  function Add<R, O>(turns: seq<Turn<R, O>>, entry: Entry<R, O>): seq<Turn<R, O>> {
    if entry.Answer? then AppendResult(turns, entry.result) else turns + Alone(entry)
  }

  function Gather<R, O>(entries: seq<Entry<R, O>>): seq<Turn<R, O>> {
    if entries == [] then [] else Add(Gather(entries[..|entries| - 1]), entries[|entries| - 1])
  }

  // ------------------------------------------------------------------ what gathering gives

  function ResultsIn<R, O>(parts: seq<Part<R, O>>): seq<R> {
    if parts == [] then [] else
    ResultsIn(parts[..|parts| - 1]) + if parts[|parts| - 1].Result? then [parts[|parts| - 1].result] else []
  }

  function Results<R, O>(t: Turn<R, O>): seq<R> {
    if t.content.Parts? then ResultsIn(t.content.parts) else []
  }

  predicate HoldsResults<R, O>(t: Turn<R, O>) {
    t.content.Parts? && exists i | 0 <= i < |t.content.parts| :: t.content.parts[i].Result?
  }

  /** A turn that holds results is a user turn and holds nothing else. */
  predicate Uniform<R, O>(t: Turn<R, O>) {
    HoldsResults(t) ==> t.role == "user" && forall i | 0 <= i < |t.content.parts| :: t.content.parts[i].Result?
  }

  predicate AllUniform<R, O>(turns: seq<Turn<R, O>>) {
    forall i | 0 <= i < |turns| :: Uniform(turns[i])
  }

  /** No two turns next to each other both hold results. */
  predicate Gathered<R, O>(turns: seq<Turn<R, O>>) {
    forall i | 0 < i < |turns| :: !(HoldsResults(turns[i - 1]) && HoldsResults(turns[i]))
  }

  function Singles<R, O>(results: seq<R>): seq<Turn<R, O>> {
    seq(|results|, i requires 0 <= i < |results| => Turn("user", Parts([Result(results[i])])))
  }

  /** A turn with its results, if any, taken apart into one turn each. */
  function Single<R, O>(t: Turn<R, O>): seq<Turn<R, O>> {
    if HoldsResults(t) then Singles(Results(t)) else [t]
  }

  function TakenApart<R, O>(turns: seq<Turn<R, O>>): seq<Turn<R, O>> {
    if turns == [] then [] else TakenApart(turns[..|turns| - 1]) + Single(turns[|turns| - 1])
  }

  function AloneAll<R, O>(entries: seq<Entry<R, O>>): seq<Turn<R, O>> {
    if entries == [] then [] else AloneAll(entries[..|entries| - 1]) + Alone(entries[|entries| - 1])
  }

  lemma OneResult<R, O>(result: R)
    ensures var t: Turn<R, O> := Turn("user", Parts([Result(result)]));
            Uniform(t) && HoldsResults(t) && Results(t) == [result] && Single(t) == [t]
  {
    var t: Turn<R, O> := Turn("user", Parts([Result(result)]));
    var parts := t.content.parts;
    assert parts[0].Result? && parts[..|parts| - 1] == [];
    assert ResultsIn(parts) == [] + [result];
    assert Singles<R, O>([result]) == [t];
  }

  lemma MoreResults<R, O>(t: Turn<R, O>, result: R)
    requires Uniform(t) && TakesResults(t)
    ensures var u := t.(content := Parts(t.content.parts + [Result(result)]));
            && HoldsResults(t) && Uniform(u) && HoldsResults(u)
            && Results(u) == Results(t) + [result]
            && Single(u) == Single(t) + [Turn("user", Parts([Result(result)]))]
  {
    var u := t.(content := Parts(t.content.parts + [Result(result)]));
    assert t.content.parts[|t.content.parts| - 1].Result?;
    assert u.content.parts[|u.content.parts| - 1].Result?;
    assert u.content.parts[..|u.content.parts| - 1] == t.content.parts;
    assert Results(u) == Results(t) + [result];
  }

  lemma SaidHoldsNone<R, O>(entry: Entry<R, O>)
    requires !entry.Answer?
    ensures forall t | t in Alone(entry) :: !HoldsResults(t) && Uniform(t)
  {}

  lemma LastTakes<R, O>(t: Turn<R, O>)
    requires Uniform(t) && HoldsResults(t)
    ensures TakesResults(t)
  {}

  lemma AppendGathers<R, O>(turns: seq<Turn<R, O>>, result: R)
    requires AllUniform(turns) && Gathered(turns)
    ensures AllUniform(AppendResult(turns, result)) && Gathered(AppendResult(turns, result))
    ensures TakenApart(AppendResult(turns, result)) == TakenApart(turns) + Alone(Answer(result))
  {
    var out := AppendResult(turns, result);
    OneResult<R, O>(result);
    if turns != [] && TakesResults(turns[|turns| - 1]) {
      var last := turns[|turns| - 1];
      MoreResults(last, result);
      hide HoldsResults, Uniform, Single, TakesResults;
      assert out[..|out| - 1] == turns[..|turns| - 1];
      ConcatAssoc(TakenApart(turns[..|turns| - 1]), Single(last), Alone(Answer(result)));
    } else {
      if turns != [] && HoldsResults(turns[|turns| - 1]) {
        LastTakes(turns[|turns| - 1]);
      }
      hide HoldsResults, Uniform, Single, TakesResults;
      assert out[..|out| - 1] == turns;
    }
  }

  lemma SaidGathers<R, O>(turns: seq<Turn<R, O>>, entry: Entry<R, O>)
    requires AllUniform(turns) && Gathered(turns) && !entry.Answer?
    ensures AllUniform(turns + Alone(entry)) && Gathered(turns + Alone(entry))
    ensures TakenApart(turns + Alone(entry)) == TakenApart(turns) + Alone(entry)
  {
    SaidHoldsNone(entry);
    var more := Alone(entry);
    if more == [] {
      assert turns + more == turns;
    } else {
      assert more == [more[0]] && more[0] in more;
      hide HoldsResults, Uniform;
      assert (turns + more)[..|turns + more| - 1] == turns;
    }
  }

  /** The turns are the entries in order with runs of answers gathered: taken apart they are
      exactly the entries one by one, and no two neighbours hold results. */
  lemma {:induction false} GatherGathers<R, O>(entries: seq<Entry<R, O>>)
    ensures AllUniform(Gather(entries)) && Gathered(Gather(entries))
    ensures TakenApart(Gather(entries)) == AloneAll(entries)
  {
    if entries != [] {
      hide AllUniform, Gathered, AppendResult, Alone, TakenApart;
      var init, last := entries[..|entries| - 1], entries[|entries| - 1];
      GatherGathers(init);
      if last.Answer? {
        AppendGathers(Gather(init), last.result);
      } else {
        SaidGathers(Gather(init), last);
      }
    } else {
      assert AllUniform<R, O>([]) && Gathered<R, O>([]);
    }
  }

  // ------------------------------------------------------------------ it is the only way

  lemma {:induction false} AllResults<R, O>(parts: seq<Part<R, O>>)
    requires forall i | 0 <= i < |parts| :: parts[i].Result?
    ensures |ResultsIn(parts)| == |parts|
    ensures forall i | 0 <= i < |parts| :: parts[i] == Result(ResultsIn(parts)[i])
  {
    if parts != [] {
      AllResults(parts[..|parts| - 1]);
    }
  }

  /** A turn that holds results is determined by them. */
  lemma UniformIsItsResults<R, O>(t: Turn<R, O>)
    requires Uniform(t) && HoldsResults(t)
    ensures Results(t) != []
    ensures t.role == "user" && t.content.Parts? && |t.content.parts| == |Results(t)|
    ensures forall i | 0 <= i < |Results(t)| :: t.content.parts[i] == Result(Results(t)[i])
  {
    AllResults(t.content.parts);
  }

  lemma SameResults<R, O>(t: Turn<R, O>, u: Turn<R, O>)
    requires Uniform(t) && HoldsResults(t) && Uniform(u) && HoldsResults(u) && Results(t) == Results(u)
    ensures t == u
  {
    UniformIsItsResults(t);
    UniformIsItsResults(u);
    assert t.content.parts == u.content.parts;
  }

  /** A list of turns taken apart ends as the list ends. */
  lemma EndsAlike<R, O>(turns: seq<Turn<R, O>>)
    requires AllUniform(turns) && turns != []
    ensures TakenApart(turns) != []
    ensures HoldsResults(TakenApart(turns)[|TakenApart(turns)| - 1]) <==> HoldsResults(turns[|turns| - 1])
  {
    var last := turns[|turns| - 1];
    if HoldsResults(last) {
      UniformIsItsResults(last);
      var results := Results(last);
      OneResult<R, O>(results[|results| - 1]);
      assert TakenApart(turns)[|TakenApart(turns)| - 1] == Singles<R, O>(results)[|results| - 1];
    }
  }

  /** How many turns at the end of a list hold results. */
  function Trail<R, O>(turns: seq<Turn<R, O>>): nat {
    if turns == [] || !HoldsResults(turns[|turns| - 1]) then 0 else 1 + Trail(turns[..|turns| - 1])
  }

  lemma TrailSnoc<R, O>(turns: seq<Turn<R, O>>, t: Turn<R, O>)
    requires HoldsResults(t)
    ensures Trail(turns + [t]) == 1 + Trail(turns)
  {
    hide HoldsResults;
    assert (turns + [t])[..|turns + [t]| - 1] == turns;
  }

  lemma SinglesSnoc<R, O>(results: seq<R>, last: R)
    ensures Singles<R, O>(results + [last]) == Singles<R, O>(results) + [Turn("user", Parts([Result(last)]))]
  {}

  lemma {:induction false} TrailOfSingles<R, O>(before: seq<Turn<R, O>>, results: seq<R>)
    requires before != [] ==> !HoldsResults(before[|before| - 1])
    ensures Trail(before + Singles(results)) == |results|
  {
    if results == [] {
      assert before + Singles(results) == before;
    } else {
      var init, last := results[..|results| - 1], results[|results| - 1];
      hide HoldsResults, Singles, Trail;
      TrailOfSingles(before, init);
      OneResult<R, O>(last);
      assert results == init + [last];
      SinglesSnoc<R, O>(init, last);
      var t: Turn<R, O> := Turn("user", Parts([Result(last)]));
      ConcatAssoc(before, Singles<R, O>(init), [t]);
      TrailSnoc(before + Singles<R, O>(init), t);
    }
  }

  lemma SingleByTrail<R, O>(a: seq<Turn<R, O>>, x: Turn<R, O>)
    requires AllUniform(a) && Uniform(x)
    requires HoldsResults(x) && a != [] ==> !HoldsResults(a[|a| - 1])
    ensures var trail := Trail(TakenApart(a) + Single(x)); |Single(x)| == if trail == 0 then 1 else trail
  {
    if HoldsResults(x) {
      UniformIsItsResults(x);
      if a != [] {
        EndsAlike(a);
      }
      hide HoldsResults, Uniform, Results;
      TrailOfSingles(TakenApart(a), Results(x));
    }
  }

  lemma SinglesHold<R, O>(t: Turn<R, O>)
    requires Uniform(t)
    ensures Single(t) != [] && (HoldsResults(Single(t)[0]) <==> HoldsResults(t))
  {
    if HoldsResults(t) {
      UniformIsItsResults(t);
      OneResult<R, O>(Results(t)[0]);
    }
  }

  lemma SinglesInjective<R, O>(a: seq<R>, b: seq<R>)
    requires Singles<R, O>(a) == Singles<R, O>(b)
    ensures a == b
  {
    assert |a| == |Singles<R, O>(a)| == |b|;
    forall i | 0 <= i < |a| ensures a[i] == b[i] {
      assert Singles<R, O>(a)[i].content.parts[0] == Result(a[i]);
      assert Singles<R, O>(b)[i].content.parts[0] == Result(b[i]);
    }
  }

  lemma SingleInjective<R, O>(x: Turn<R, O>, y: Turn<R, O>)
    requires Uniform(x) && Uniform(y) && Single(x) == Single(y)
    ensures x == y
  {
    SinglesHold(x);
    SinglesHold(y);
    if HoldsResults(x) {
      SinglesInjective<R, O>(Results(x), Results(y));
      SameResults(x, y);
    }
  }

  lemma CutAlike<T>(a: seq<T>, x: seq<T>, b: seq<T>, y: seq<T>)
    requires a + x == b + y && |x| == |y|
    ensures a == b && x == y
  {
    assert |a + x| == |a| + |x| && |b + y| == |b| + |y|;
    assert a == (a + x)[..|a|] && b == (b + y)[..|a|];
    assert x == (a + x)[|a|..] && y == (b + y)[|a|..];
  }

  lemma LastOfGathered<R, O>(turns: seq<Turn<R, O>>)
    requires AllUniform(turns) && Gathered(turns) && turns != []
    ensures var init, last := turns[..|turns| - 1], turns[|turns| - 1];
            && AllUniform(init) && Gathered(init) && Uniform(last)
            && (HoldsResults(last) && init != [] ==> !HoldsResults(init[|init| - 1]))
  {
    hide Uniform, HoldsResults;
  }

  lemma SameLast<R, O>(p: seq<Turn<R, O>>, x: Turn<R, O>, q: seq<Turn<R, O>>, y: Turn<R, O>)
    requires AllUniform(p) && Uniform(x) && (HoldsResults(x) && p != [] ==> !HoldsResults(p[|p| - 1]))
    requires AllUniform(q) && Uniform(y) && (HoldsResults(y) && q != [] ==> !HoldsResults(q[|q| - 1]))
    requires TakenApart(p) + Single(x) == TakenApart(q) + Single(y)
    ensures TakenApart(p) == TakenApart(q) && x == y
  {
    hide *;
    SingleByTrail(p, x);
    SingleByTrail(q, y);
    CutAlike(TakenApart(p), Single(x), TakenApart(q), Single(y));
    SingleInjective(x, y);
  }

  /** No other list of turns does it: one that comes apart into the same turns, mixes results
      with nothing and has no two neighbours that hold results is the same list. */
  lemma {:induction false} OnlyGathering<R, O>(a: seq<Turn<R, O>>, b: seq<Turn<R, O>>)
    requires AllUniform(a) && Gathered(a) && AllUniform(b) && Gathered(b)
    requires TakenApart(a) == TakenApart(b)
    ensures a == b
  {
    hide HoldsResults, Uniform, Single, AllUniform, Gathered;
    if a == [] {
      if b != [] {
        EndsAlike(b);
      }
    } else {
      EndsAlike(a);
      LastOfGathered(a);
      LastOfGathered(b);
      SameLast(a[..|a| - 1], a[|a| - 1], b[..|b| - 1], b[|b| - 1]);
      OnlyGathering(a[..|a| - 1], b[..|b| - 1]);
      assert a == a[..|a| - 1] + [a[|a| - 1]] && b == b[..|b| - 1] + [b[|b| - 1]];
    }
  }

  // ------------------------------------------------------------------ the results in order

  function FlattenedResults<R, O>(turns: seq<Turn<R, O>>): seq<R> {
    if turns == [] then [] else FlattenedResults(turns[..|turns| - 1]) + Results(turns[|turns| - 1])
  }

  function Answers<R, O>(entries: seq<Entry<R, O>>): seq<R> {
    if entries == [] then [] else
    Answers(entries[..|entries| - 1]) + if entries[|entries| - 1].Answer? then [entries[|entries| - 1].result] else []
  }

  lemma {:induction false} NoResults<R, O>(parts: seq<Part<R, O>>)
    requires forall i | 0 <= i < |parts| :: !parts[i].Result?
    ensures ResultsIn(parts) == []
  {
    if parts != [] {
      NoResults(parts[..|parts| - 1]);
    }
  }

  lemma SaidAddsNone<R, O>(turns: seq<Turn<R, O>>, entry: Entry<R, O>)
    requires !entry.Answer?
    ensures FlattenedResults(turns + Alone(entry)) == FlattenedResults(turns)
  {
    var more := Alone(entry);
    if more == [] {
      assert turns + more == turns;
    } else {
      assert more == [more[0]];
      if entry.SaidParts? {
        NoResults(Others<R, O>(entry.parts));
      }
      assert Results(more[0]) == [];
      assert (turns + more)[..|turns + more| - 1] == turns;
    }
  }

  lemma AppendAddsOne<R, O>(turns: seq<Turn<R, O>>, result: R)
    requires AllUniform(turns)
    ensures FlattenedResults(AppendResult(turns, result)) == FlattenedResults(turns) + [result]
  {
    var out := AppendResult(turns, result);
    OneResult<R, O>(result);
    if turns != [] && TakesResults(turns[|turns| - 1]) {
      var last := turns[|turns| - 1];
      MoreResults(last, result);
      hide Results;
      assert out[..|out| - 1] == turns[..|turns| - 1];
      ConcatAssoc(FlattenedResults(turns[..|turns| - 1]), Results(last), [result]);
    } else {
      hide Results;
      assert out[..|out| - 1] == turns;
    }
  }

  /** Read off in order, the results of the turns are the answers of the conversation. */
  lemma {:induction false} ResultsInOrder<R, O>(entries: seq<Entry<R, O>>)
    ensures FlattenedResults(Gather(entries)) == Answers(entries)
  {
    if entries != [] {
      hide AllUniform, AppendResult, Alone, FlattenedResults;
      var init, last := entries[..|entries| - 1], entries[|entries| - 1];
      ResultsInOrder(init);
      GatherGathers(init);
      if last.Answer? {
        AppendAddsOne(Gather(init), last.result);
      } else {
        SaidAddsNone(Gather(init), last);
      }
    } else {
      assert FlattenedResults<R, O>([]) == [];
    }
  }
}
