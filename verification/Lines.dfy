/** Lines of a text: each runs to the end of the first separator, or to the end of the text. */
module Lines {

  predicate FoundAt<A(==)>(text: seq<A>, sep: seq<A>, i: nat) {
    i + |sep| <= |text| && text[i..i + |sep|] == sep
  }

  /** Index of the first separator at or after `from`, or |text| if there is none. */
  function FirstAt<A(==)>(text: seq<A>, sep: seq<A>, from: nat): (i: nat)
    requires sep != []
    ensures i < |text| ==> from <= i && FoundAt(text, sep, i)
    ensures forall j :: from <= j < i ==> !FoundAt(text, sep, j)
    ensures i <= |text| || i == from
    decreases |text| - from
  {
    if from >= |text| then from
    else if FoundAt(text, sep, from) then from
    else FirstAt(text, sep, from + 1)
  }

  /** Length of the first line. */
  function LineLength<A(==)>(text: seq<A>, sep: seq<A>): (n: nat)
    requires sep != []
    ensures n <= |text| && (n == 0 <==> text == [])
  {
    var i := FirstAt(text, sep, 0);
    if i < |text| then i + |sep| else |text|
  }

  /** All lines of a text. */
  function LinesOf<A(==)>(text: seq<A>, sep: seq<A>): seq<seq<A>>
    requires sep != []
    decreases |text|
  {
    if text == [] then []
    else
      var n := LineLength(text, sep);
      [text[..n]] + LinesOf(text[n..], sep)
  }

  function Concat<A>(parts: seq<seq<A>>): seq<A> {
    if parts == [] then [] else parts[0] + Concat(parts[1..])
  }

  /** The first separator is unique: any index with its property is the one found. */
  lemma {:induction false} FirstAtIs<A>(text: seq<A>, sep: seq<A>, i: nat)
    requires sep != [] && FoundAt(text, sep, i) && forall j :: 0 <= j < i ==> !FoundAt(text, sep, j)
    ensures LineLength(text, sep) == i + |sep|
  {
    var k := FirstAt(text, sep, 0);
    assert k == i;
  }

  lemma {:induction false} NoneAt<A>(text: seq<A>, sep: seq<A>)
    requires sep != [] && forall j :: 0 <= j < |text| ==> !FoundAt(text, sep, j)
    ensures LineLength(text, sep) == |text|
  {}

  /** A line holds no separator except as its very end. */
  predicate IsLine<A(==)>(line: seq<A>, sep: seq<A>) {
    && line != []
    && forall j :: 0 <= j && j + |sep| < |line| ==> !FoundAt(line, sep, j)
  }

  lemma {:induction false} FirstLine<A>(text: seq<A>, sep: seq<A>)
    requires sep != [] && text != []
    ensures var line := text[..LineLength(text, sep)];
            && IsLine(line, sep)
            && (|line| < |text| ==> |sep| <= |line| && line[|line| - |sep|..] == sep)
  {
    var line := text[..LineLength(text, sep)];
    var i := FirstAt(text, sep, 0);
    forall j | 0 <= j && j + |sep| < |line| ensures !FoundAt(line, sep, j) {
      assert line[j..j + |sep|] == text[j..j + |sep|];
      assert !FoundAt(text, sep, j);
    }
    if |line| < |text| {
      assert line[|line| - |sep|..] == text[i..i + |sep|];
    }
  }

  /** The lines of a text, put together again, are the text; each ends at its first separator, and
      only the last may lack one. */
  lemma {:induction false} LinesPartition<A>(text: seq<A>, sep: seq<A>)
    requires sep != []
    ensures var ls := LinesOf(text, sep);
            && Concat(ls) == text
            && (forall k :: 0 <= k < |ls| ==> IsLine(ls[k], sep))
            && (forall k :: 0 <= k < |ls| - 1 ==> |sep| <= |ls[k]| && ls[k][|ls[k]| - |sep|..] == sep)
    decreases |text|
  {
    hide IsLine, LineLength;
    if text != [] {
      var n := LineLength(text, sep);
      FirstLine(text, sep);
      LinesPartition(text[n..], sep);
      assert text[..n] + text[n..] == text;
      assert LinesOf(text, sep)[1..] == LinesOf(text[n..], sep);
    }
  }
}
