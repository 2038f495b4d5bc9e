/** The line buffer of the editors: a list of lines and a cursor stand for one flat text with a
    position in it. */
module EditorBuffer {

  // ---------------------------------------------------------------- Array#insert

  /** `list[at] = value`; a gap is filled with nil. */
  function Stored<T>(list: seq<T>, at: nat, value: T, nil: T): seq<T> {
    if at < |list| then list[at := value] else list + seq(at - |list|, _ => nil) + [value]
  }

  /** Values written over a list from an index within it on. */
  function Overlay<T>(list: seq<T>, at: nat, vals: seq<T>): seq<T>
    requires at <= |list|
  {
    list[..at] + vals + (if at + |vals| <= |list| then list[at + |vals|..] else [])
  }

  lemma {:induction false} OverlayNext<T>(list: seq<T>, at: nat, vals: seq<T>, value: T, nil: T)
    requires at <= |list|
    ensures Stored(Overlay(list, at, vals), at + |vals|, value, nil) == Overlay(list, at, vals + [value])
  {
    var now := Overlay(list, at, vals);
    if at + |vals| < |list| {
      assert now[at + |vals| := value] == list[..at] + (vals + [value]) + list[at + |vals| + 1..];
    } else {
      assert now == list[..at] + vals;
    }
  }

  lemma {:induction false} OverlayTwice<T>(list: seq<T>, at: nat, vals: seq<T>)
    requires at <= |list|
    ensures Overlay(list, at, []) == list
    ensures at + |vals| <= |Overlay(list, at, vals)|
    ensures Overlay(Overlay(list, at, vals), at + |vals|, list[at..]) == list[..at] + vals + list[at..]
  {
    var now := Overlay(list, at, vals);
    assert now[..at + |vals|] == list[..at] + vals;
  }

  /** The list with its gap up to an index filled. */
  function Padded<T>(list: seq<T>, at: nat, nil: T): (r: seq<T>)
    ensures at <= |r| && (at <= |list| ==> r == list)
  {
    if at <= |list| then list else list + seq(at - |list|, _ => nil)
  }

  /** List insertion. */
  function WithInserted<T>(list: seq<T>, index: nat, vals: seq<T>, nil: T): seq<T> {
    if vals == [] then list
    else
      var padded := Padded(list, index, nil);
      padded[..index] + vals + padded[index..]
  }

  /** Where everything is after an insertion; behind the old end of the list a gap is nil. */
  lemma {:induction false} InsertedPlaces<T>(list: seq<T>, index: nat, vals: seq<T>, nil: T)
    requires vals != []
    ensures var r := WithInserted(list, index, vals, nil);
            && |r| == (if index <= |list| then |list| else index) + |vals|
            && forall k :: 0 <= k < |r| ==>
                 r[k] == if index <= k < index + |vals| then vals[k - index]
                         else if k < index then (if k < |list| then list[k] else nil)
                         else list[k - |vals|]
  {
  }

  lemma {:induction false} StoredFirst<T>(list: seq<T>, at: nat, value: T, nil: T)
    ensures Stored(list, at, value, nil) == Overlay(Padded(list, at, nil), at, [value])
  {
  }

  lemma {:induction false} InsertedIs<T>(list: seq<T>, index: nat, vals: seq<T>, nil: T)
    ensures vals != [] ==>
      WithInserted(list, index, vals, nil)
      == Padded(list, index, nil)[..index] + vals + (if index <= |list| then list[index..] else [])
    ensures vals == [] ==> WithInserted(list, index, vals, nil) == list
  {
    var padded := Padded(list, index, nil);
    if |list| < index { assert padded[index..] == []; }
  }

  /** The hand-written `Array#insert`: it overwrites from the index on, then puts the old tail behind,
      and that is list insertion. A negative index raises. */
  method Insert<T>(list: seq<T>, index: int, vals: seq<T>, nil: T) returns (items: seq<T>, raised: bool)
    ensures raised <==> index < 0
    ensures items == if raised then list else WithInserted(list, index, vals, nil)
  {
    items, raised := list, index < 0;
    if raised { return; }
    hide Stored, Overlay, Padded, WithInserted;
    var tail := if index <= |items| then items[index..] else [];
    ghost var padded := Padded(list, index, nil);
    OverlayTwice(padded, index, vals);
    InsertedIs(list, index, vals, nil);
    for i := 0 to |vals|
      invariant items == if i == 0 then list else Overlay(padded, index, vals[..i])
    {
      StoredFirst(list, index, vals[0], nil);
      OverlayNext(padded, index, vals[..i], vals[i], nil);
      assert vals[..i + 1] == vals[..i] + [vals[i]];
      items := Stored(items, index + i, vals[i], nil);
    }
    assert vals[..|vals|] == vals;
    items := StoreTail(list, index, vals, tail, nil, items);
  }

  /** The tail is put behind the values. */
  method StoreTail<T>(ghost list: seq<T>, index: nat, vals: seq<T>, tail: seq<T>, nil: T, from: seq<T>)
    returns (items: seq<T>)
    requires tail == if index <= |list| then list[index..] else []
    requires from == Written(list, index, vals, nil)
    ensures items == WithInserted(list, index, vals, nil)
  {
    hide *;
    items := from;
    if tail == [] {
      NoTail(list, index, vals, nil);
      return;
    }
    var at := index + |vals|;
    WholeTail(list, index, vals, nil);
    OverlayTwice(from, at, []);
    for i := 0 to |tail|
      invariant at == index + |vals| + i && items == Overlay(from, index + |vals|, tail[..i])
    {
      OverlayNext(from, index + |vals|, tail[..i], tail[i], nil);
      assert tail[..i + 1] == tail[..i] + [tail[i]];
      items := Stored(items, at, tail[i], nil);
      at := at + 1;
    }
    assert tail[..|tail|] == tail;
  }

  /** Values put over a list, before its old tail is put behind them. */
  function Written<T>(list: seq<T>, index: nat, vals: seq<T>, nil: T): seq<T> {
    if vals == [] then list else Overlay(Padded(list, index, nil), index, vals)
  }

  lemma {:induction false} NoTail<T>(list: seq<T>, index: nat, vals: seq<T>, nil: T)
    requires |list| <= index
    ensures Written(list, index, vals, nil) == WithInserted(list, index, vals, nil)
  {
    InsertedIs(list, index, vals, nil);
    assert Padded(list, index, nil)[index..] == [];
  }

  lemma {:induction false} WholeTail<T>(list: seq<T>, index: nat, vals: seq<T>, nil: T)
    requires index < |list|
    ensures index + |vals| <= |Written(list, index, vals, nil)|
    ensures Overlay(Written(list, index, vals, nil), index + |vals|, list[index..])
            == WithInserted(list, index, vals, nil)
  {
    hide Overlay;
    InsertedIs(list, index, vals, nil);
    OverlayTwice(list, index, vals);
    OverlayTwice(list, index, []);
    if vals == [] { assert list[..index] + [] + list[index..] == list; }
  }

  // ---------------------------------------------------------------- flat text

  /** Lines before the cursor's, each with its line end. */
  function Before(lines: seq<string>): string {
    if lines == [] then "" else Before(lines[..|lines| - 1]) + (lines[|lines| - 1] + "\n")
  }

  /** Lines after the cursor's, each behind a line end. */
  function Behind(lines: seq<string>): string {
    if lines == [] then "" else ("\n" + lines[0]) + Behind(lines[1..])
  }

  /** `lines.join("\n")`. */
  function Joined(lines: seq<string>): string
    requires lines != []
  {
    lines[0] + Behind(lines[1..])
  }

  lemma {:induction false} JoinedAround(lines: seq<string>, y: nat)
    requires y < |lines|
    ensures Joined(lines) == Before(lines[..y]) + lines[y] + Behind(lines[y + 1..])
  {
    if y == 0 {
      assert "" + lines[0] == lines[0];
    } else {
      JoinedAround(lines, y - 1);
      assert lines[..y][..y - 1] == lines[..y - 1];
      assert lines[y..][1..] == lines[y + 1..];
      var a, l, b := Before(lines[..y - 1]), lines[y - 1], Behind(lines[y + 1..]);
      assert a + l + (("\n" + lines[y]) + b) == (a + (l + "\n")) + lines[y] + b;
    }
  }

  datatype Flat = Flat(text: string, position: nat)

  function Inserted(f: Flat, c: char): (r: Flat)
    requires f.position <= |f.text|
    ensures r.position <= |r.text|
  {
    Flat(f.text[..f.position] + [c] + f.text[f.position..], f.position + 1)
  }

  function Deleted(f: Flat): Flat
    requires f.position <= |f.text|
  {
    if f.position == 0 then f else Flat(f.text[..f.position - 1] + f.text[f.position..], f.position - 1)
  }

  lemma {:induction false} DeletedUndoes(f: Flat, c: char)
    requires f.position <= |f.text|
    ensures Deleted(Inserted(f, c)) == f
  {
    var g := Inserted(f, c);
    assert g.text[..f.position] == f.text[..f.position] && g.text[f.position + 1..] == f.text[f.position..];
    assert f.text[..f.position] + f.text[f.position..] == f.text;
  }

  const SLICE_MAX := 65535

  function Rest(line: string, x: nat): (r: string)
    requires x <= |line|
    ensures |r| == if |line| - x <= SLICE_MAX then |line| - x else SLICE_MAX
  {
    if |line| - x <= SLICE_MAX then line[x..] else line[x..x + SLICE_MAX]
  }

  class Buffer {
    var lines: seq<string>
    var cursorX: nat
    var cursorY: nat

    ghost predicate Valid()
      reads this
    {
      cursorY < |lines|
    }

    function Column(): nat
      requires Valid()
      reads this
    {
      if |lines[cursorY]| < cursorX then |lines[cursorY]| else cursorX
    }

    /** The flat text, and the position of the cursor clamped to its line. */
    ghost function Abs(): (f: Flat)
      requires Valid()
      reads this
      ensures f.position <= |f.text|
    {
      JoinedAround(lines, cursorY);
      Flat(Joined(lines), |Before(lines[..cursorY])| + Column())
    }

    /** The text is the line at the cursor between those before and behind it. */
    lemma {:induction false} Shape()
      requires Valid()
      ensures Abs() == Flat(Before(lines[..cursorY]) + lines[cursorY] + Behind(lines[cursorY + 1..]),
                            |Before(lines[..cursorY])| + Column())
    {
      JoinedAround(lines, cursorY);
    }

    constructor ()
      ensures Valid() && Abs() == Flat("", 0) && lines == [""] && cursorX == cursorY == 0
    {
      lines, cursorX, cursorY := [""], 0, 0;
      new;
      assert lines[1..] == [] && lines[..0] == [];
    }

    method Home()
      requires Valid()
      modifies this`cursorX, this`cursorY
      ensures Valid() && Abs() == Flat(old(Abs()).text, 0)
    {
      cursorX, cursorY := 0, 0;
      assert lines[..0] == [];
    }

    method Head()
      requires Valid()
      modifies this`cursorX
      ensures cursorX == 0
    {
      cursorX := 0;
    }

    method Tail()
      requires Valid()
      modifies this`cursorX
      ensures cursorX == |lines[cursorY]|
    {
      cursorX := |lines[cursorY]|;
    }

    method Up()
      requires Valid()
      modifies this`cursorY
      ensures Valid() && cursorY == (if 0 < old(cursorY) then old(cursorY) - 1 else 0)
      ensures Abs().text == old(Abs()).text
    {
      if 0 < cursorY { cursorY := cursorY - 1; }
    }

    method Down()
      requires Valid()
      modifies this`cursorY
      ensures Valid() && cursorY == (if old(cursorY) + 1 < |lines| then old(cursorY) + 1 else old(cursorY))
      ensures Abs().text == old(Abs()).text
    {
      if cursorY + 1 < |lines| { cursorY := cursorY + 1; }
    }

    /** One position back, across the line end. */
    method Left()
      requires Valid()
      modifies this`cursorX, this`cursorY
      ensures Valid() && Abs().text == old(Abs()).text
      ensures Abs().position == if old(Abs()).position == 0 then 0 else old(Abs()).position - 1
    {
      ghost var y := cursorY;
      Offsets(y);
      if 0 < cursorX && 0 < |lines[cursorY]| {
        if |lines[cursorY]| < cursorX { Tail(); }
        cursorX := cursorX - 1;
      } else if 0 < cursorY {
        Up();
        Tail();
      } else {
        assert lines[..0] == [];
      }
    }

    /** One position on, across the line end. */
    method Right()
      requires Valid()
      modifies this`cursorX, this`cursorY
      ensures Valid() && Abs().text == old(Abs()).text
      ensures Abs().position == if old(Abs()).position == |Abs().text| then |Abs().text| else old(Abs()).position + 1
      ensures old(cursorX) < |lines[old(cursorY)]| ==> cursorX == old(cursorX) + 1 && cursorY == old(cursorY)
    {
      Ending(cursorY);
      if cursorX < |lines[cursorY]| {
        cursorX := cursorX + 1;
      } else if cursorY + 1 < |lines| {
        Offsets(cursorY + 1);
        Down();
        Head();
      }
    }

    /** Where a line starts, from where the one before it does. */
    lemma {:induction false} Offsets(y: nat)
      requires y < |lines|
      ensures y > 0 ==> |Before(lines[..y])| == |Before(lines[..y - 1])| + |lines[y - 1]| + 1
      ensures y == 0 ==> |Before(lines[..y])| == 0
    {
      if y > 0 { assert lines[..y][..y - 1] == lines[..y - 1]; }
    }

    /** Only the last line reaches to the end of the text. */
    lemma {:induction false} Ending(y: nat)
      requires y < |lines|
      ensures |Before(lines[..y])| + |lines[y]| <= |Joined(lines)|
      ensures |Before(lines[..y])| + |lines[y]| == |Joined(lines)| <==> y + 1 == |lines|
    {
      JoinedAround(lines, y);
    }

    /** The part of the line from the cursor on is no longer than the slice that is kept. */
    predicate RestFits()
      requires Valid()
      reads this
    {
      |lines[cursorY]| - Column() <= SLICE_MAX
    }

    /** `put` of one character. The text and cursor change by its insertion exactly when the rest of the
        line fits. */
    method PutChar(c: char)
      requires Valid()
      modifies this
      ensures Valid() && cursorY == old(cursorY) && RestFits()
      ensures Abs() == Inserted(old(Abs()), c) <==> old(RestFits())
    {
      hide Before, Behind, Joined, Inserted, Rest, Abs;
      Shape();
      var line := lines[cursorY];
      if |line| < cursorX { Tail(); }
      line := line[..cursorX] + [c] + Rest(line, cursorX);
      RestLength(lines[cursorY], cursorX);
      lines := lines[cursorY := line];
      Right();
      assert lines[..cursorY] == old(lines[..cursorY]) && lines[cursorY + 1..] == old(lines[cursorY + 1..]);
      Shape();
      CharText(Before(lines[..cursorY]), old(lines[cursorY]), old(Column()), Behind(lines[cursorY + 1..]), c);
    }

    /** `put :TAB`: two spaces. */
    method PutTab()
      requires Valid()
      modifies this
      ensures Valid()
      ensures Abs() == Inserted(Inserted(old(Abs()), ' '), ' ') <==> old(RestFits())
    {
      hide Inserted, Abs, RestFits;
      ghost var f := Abs();
      PutChar(' ');
      ghost var g := Abs();
      PutChar(' ');
      DeletedUndoes(f, ' ');
      DeletedUndoes(g, ' ');
      DeletedUndoes(Inserted(f, ' '), ' ');
    }

    /** `put :ENTER`: a line end is inserted, on the same condition. */
    method PutEnter()
      requires Valid()
      modifies this
      ensures Valid() && cursorX == 0 && cursorY == old(cursorY) + 1
      ensures Abs() == Inserted(old(Abs()), '\n') <==> old(RestFits())
    {
      hide Before, Behind, Joined, Inserted, Rest, Abs, WithInserted;
      Shape();
      var line := lines[cursorY];
      if |line| < cursorX { Tail(); }
      var newLine := Rest(line, cursorX);
      lines := lines[cursorY := line[..cursorX]];
      ghost var cut := lines;
      var raised;
      lines, raised := Insert(lines, cursorY + 1, [newLine], "");
      InsertedInside(cut, cursorY + 1, newLine, "");
      Head();
      cursorY := cursorY + 1;
      assert lines[..cursorY] == old(lines[..cursorY]) + [line[..old(Column())]] && lines[cursorY] == newLine;
      assert lines[cursorY + 1..] == old(lines[cursorY + 1..]);
      BeforeOneMore(old(lines[..cursorY]), line[..old(Column())]);
      Shape();
      EnterText(Before(old(lines[..cursorY])), line, old(Column()), Behind(lines[cursorY + 1..]));
    }

    /** `put :BSPACE`: the character before the cursor is deleted, be it a line end. */
    method PutBackspace()
      requires Valid()
      modifies this
      ensures Valid() && Abs() == Deleted(old(Abs()))
    {
      hide Before, Behind, Joined, Deleted, Abs;
      Shape();
      if |lines[cursorY]| < cursorX { Tail(); }
      ghost var x, line := cursorX, lines[cursorY];
      if 0 < cursorX {
        if |lines[cursorY]| == cursorX {
          lines := lines[cursorY := lines[cursorY][..|lines[cursorY]| - 1]];
          Tail();
        } else {
          lines := lines[cursorY := lines[cursorY][..cursorX - 1] + lines[cursorY][cursorX..]];
          cursorX := cursorX - 1;
        }
        assert lines[cursorY] == line[..x - 1] + line[x..];
        assert lines[..cursorY] == old(lines[..cursorY]) && lines[cursorY + 1..] == old(lines[cursorY + 1..]);
        Shape();
        EraseText(Before(lines[..cursorY]), line, x, Behind(lines[cursorY + 1..]));
      } else if 0 < cursorY {
        ghost var above := lines[cursorY - 1];
        cursorX := |lines[cursorY - 1]|;
        lines := lines[cursorY - 1 := lines[cursorY - 1] + lines[cursorY]];
        lines := lines[..cursorY] + lines[cursorY + 1..];
        cursorY := cursorY - 1;
        assert lines[..cursorY] == old(lines[..cursorY - 1]) && lines[cursorY + 1..] == old(lines[cursorY + 1..]);
        assert old(lines[..cursorY]) == lines[..cursorY] + [above];
        BeforeOneMore(lines[..cursorY], above);
        Shape();
        JoinText(Before(lines[..cursorY]), above, line, Behind(lines[cursorY + 1..]));
      } else {
        NothingBefore(lines[..cursorY]);
        Shape();
        NothingErased(Abs());
      }
    }

    /** `put`: the cursor is clamped to its line first. Every key keeps it inside the text and changes
        the text by what it stands for, with one exception: an insertion does so exactly when the rest of
        the line fits. Up and down go to the same column of the next line, as far as there is one. */
    method Put(k: Key)
      requires Valid()
      modifies this
      ensures Valid()
      ensures Effect(k, old(Abs()), Abs()) <==> (!Inserts(k) || old(RestFits()))
      ensures k == UP ==>
        cursorX == old(Column()) && cursorY == if 0 < old(cursorY) then old(cursorY) - 1 else 0
      ensures k == DOWN ==>
        cursorX == old(Column()) && cursorY == if old(cursorY) + 1 < |lines| then old(cursorY) + 1 else old(cursorY)
      ensures !Inserts(k) && k != BSPACE ==> lines == old(lines)
    {
      hide Inserted, Deleted, Abs;
      Clamp();
      match k {
        case Char(c) => PutChar(c);
        case TAB => PutTab();
        case ENTER => PutEnter();
        case BSPACE => PutBackspace();
        case DOWN => Down();
        case UP => Up();
        case RIGHT => Right();
        case LEFT => Left();
        case HOME => Home();
      }
    }

    /** `tail if current_line.length < @cursor_x`. */
    method Clamp()
      requires Valid()
      modifies this`cursorX
      ensures cursorX == old(Column()) == Column()
      ensures Valid() && Abs() == old(Abs()) && (RestFits() <==> old(RestFits()))
    {
      if |lines[cursorY]| < cursorX { Tail(); }
    }
  }

  // ---------------------------------------------------------------- keys

  datatype Key = Char(c: char) | TAB | ENTER | BSPACE | DOWN | UP | RIGHT | LEFT | HOME

  /** What a key does to the flat text. Up and down move by lines, so they are told by the text alone. */
  predicate Effect(k: Key, f: Flat, g: Flat)
    requires f.position <= |f.text|
  {
    match k
    case Char(c) => g == Inserted(f, c)
    case TAB => g == Inserted(Inserted(f, ' '), ' ')
    case ENTER => g == Inserted(f, '\n')
    case BSPACE => g == Deleted(f)
    case RIGHT => g.text == f.text && g.position == (if f.position == |f.text| then |f.text| else f.position + 1)
    case LEFT => g.text == f.text && g.position == (if f.position == 0 then 0 else f.position - 1)
    case HOME => g == Flat(f.text, 0)
    case _ => g.text == f.text
  }

  predicate Inserts(k: Key) {
    k.Char? || k.TAB? || k.ENTER?
  }

  lemma {:induction false} InsertedInside<T>(list: seq<T>, index: nat, value: T, nil: T)
    requires index <= |list|
    ensures WithInserted(list, index, [value], nil) == list[..index] + [value] + list[index..]
  {
  }

  lemma {:induction false} BeforeOneMore(lines: seq<string>, line: string)
    ensures Before(lines + [line]) == Before(lines) + (line + "\n")
  {
    assert (lines + [line])[..|lines|] == lines;
  }

  lemma {:induction false} NothingBefore(lines: seq<string>)
    ensures lines == [] ==> Before(lines) == ""
  {
  }

  lemma {:induction false} NothingErased(f: Flat)
    requires f.position == 0
    ensures Deleted(f) == f
  {
  }

  lemma {:induction false} CharText(before: string, line: string, x: nat, behind: string, c: char)
    requires x <= |line|
    ensures var f := Flat(before + line + behind, |before| + x);
            Flat(before + (line[..x] + [c] + Rest(line, x)) + behind, |before| + x + 1) == Inserted(f, c)
            <==> |line| - x <= SLICE_MAX
  {
    var f := Flat(before + line + behind, |before| + x);
    assert f.text[..f.position] == before + line[..x] && f.text[f.position..] == line[x..] + behind;
    if |line| - x <= SLICE_MAX {
      assert before + (line[..x] + [c] + line[x..]) + behind == (before + line[..x]) + [c] + (line[x..] + behind);
    } else {
      assert |before + (line[..x] + [c] + Rest(line, x)) + behind| < |Inserted(f, c).text|;
    }
  }

  lemma {:induction false} EnterText(before: string, line: string, x: nat, behind: string)
    requires x <= |line|
    ensures var f := Flat(before + line + behind, |before| + x);
            Flat((before + (line[..x] + "\n")) + Rest(line, x) + behind, |before + (line[..x] + "\n")|)
            == Inserted(f, '\n')
            <==> |line| - x <= SLICE_MAX
  {
    CharText(before, line, x, behind, '\n');
    assert (before + (line[..x] + "\n")) + Rest(line, x) + behind
           == before + (line[..x] + ['\n'] + Rest(line, x)) + behind;
  }

  lemma {:induction false} EraseText(before: string, line: string, x: nat, behind: string)
    requires 0 < x <= |line|
    ensures var f := Flat(before + line + behind, |before| + x);
            Flat(before + (line[..x - 1] + line[x..]) + behind, |before| + x - 1) == Deleted(f)
  {
    var f := Flat(before + line + behind, |before| + x);
    assert f.text[..f.position - 1] == before + line[..x - 1] && f.text[f.position..] == line[x..] + behind;
    assert before + (line[..x - 1] + line[x..]) + behind == (before + line[..x - 1]) + (line[x..] + behind);
  }

  lemma {:induction false} JoinText(before: string, above: string, line: string, behind: string)
    ensures var f := Flat((before + (above + "\n")) + line + behind, |before + (above + "\n")|);
            Flat(before + (above + line) + behind, |before| + |above|) == Deleted(f)
  {
    EraseText(before, above + "\n" + line, |above| + 1, behind);
    assert before + (above + "\n" + line) + behind == (before + (above + "\n")) + line + behind;
    assert (above + "\n" + line)[..|above|] == above && (above + "\n" + line)[|above| + 1..] == line;
  }

  lemma {:induction false} RestLength(line: string, x: nat)
    requires x <= |line|
    ensures |Rest(line, x)| <= SLICE_MAX
  {
  }
}
