/**
  Shared vocabulary: optional values, the concatenation of a list of lists, and the places of a
  list that are marked.
 */
module Common {

  datatype Option<+T> = None | Some(value: T)

  /** The concatenation of all the pieces of `xss`, in order. */
  function Flatten<T>(xss: seq<seq<T>>): seq<T> {
    if xss == [] then [] else xss[0] + Flatten(xss[1..])
  }

  lemma ConcatAssoc<T>(a: seq<T>, b: seq<T>, c: seq<T>)
    ensures (a + b) + c == a + (b + c)
  {
  }

  lemma FlattenOne<T>(xs: seq<T>)
    ensures Flatten([xs]) == xs
  {
    assert [xs][1..] == [] && xs + [] == xs;
  }

  lemma {:induction false} FlattenAppend<T>(xss: seq<seq<T>>, yss: seq<seq<T>>)
    ensures Flatten(xss + yss) == Flatten(xss) + Flatten(yss)
  {
    if xss == [] {
      assert xss + yss == yss;
    } else {
      FlattenAppend(xss[1..], yss);
      assert (xss + yss)[1..] == xss[1..] + yss;
      ConcatAssoc(xss[0], Flatten(xss[1..]), Flatten(yss));
    }
  }

  /** The places of the marks, in order. */
  function Places(marks: seq<bool>): (at: seq<nat>)
    ensures forall j | 0 <= j < |at| :: at[j] < |marks| && marks[at[j]]
  {
    if marks == [] then [] else
    var n := |marks| - 1;
    if marks[n] then Places(marks[..n]) + [n] else Places(marks[..n])
  }

  lemma PlacesSnoc(marks: seq<bool>, mark: bool)
    ensures Places(marks + [mark]) == if mark then Places(marks) + [|marks|] else Places(marks)
  {
    assert (marks + [mark])[..|marks|] == marks;
  }

  /** All of them, each once, in ascending order. */
  lemma {:induction false} PlacesAre(marks: seq<bool>)
    ensures forall i, j | 0 <= i < j < |Places(marks)| :: Places(marks)[i] < Places(marks)[j]
    ensures forall i: nat :: i in Places(marks) <==> i < |marks| && marks[i]
  {
    if marks != [] {
      var n := |marks| - 1;
      PlacesAre(marks[..n]);
      InSnoc(Places(marks[..n]), n);
      assert Places(marks) == if marks[n] then Places(marks[..n]) + [n] else Places(marks[..n]);
      hide Places;
    }
  }

  lemma InSnoc<T>(s: seq<T>, x: T)
    ensures forall y :: y in s + [x] <==> y in s || y == x
  {}

  /** `ys` are the marked ones of `xs`, in order. */
  ghost predicate ArePicked<T>(xs: seq<T>, marks: seq<bool>, ys: seq<T>) {
    && |marks| == |xs| && |ys| == |Places(marks)|
    && forall j | 0 <= j < |ys| :: ys[j] == xs[Places(marks)[j]]
  }

  lemma PickedSnoc<T>(xs: seq<T>, marks: seq<bool>, ys: seq<T>, x: T, mark: bool)
    requires ArePicked(xs, marks, ys)
    ensures ArePicked(xs + [x], marks + [mark], if mark then ys + [x] else ys)
  {
    PlacesSnoc(marks, mark);
    var at, all, after := Places(marks), if mark then ys + [x] else ys, Places(marks + [mark]);
    hide Places;
    forall j | 0 <= j < |all| ensures all[j] == (xs + [x])[after[j]] {
      if j < |ys| {
        assert all[j] == ys[j] && after[j] == at[j] && (xs + [x])[at[j]] == xs[at[j]];
      } else {
        assert all[j] == x && after[j] == |xs|;
      }
    }
  }
}
