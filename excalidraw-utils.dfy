/**
 * lib/excalidraw-utils.ts: turning drawing instructions into Excalidraw elements, grouping
 * them by delay, the math-notation rewriting of formatMathText, and two layout helpers.
 */
module ExcalidrawUtils {
  import opened Wrappers
  import opened OpenAi

  type Point = (int, int)

  datatype ElementType = TextElement | LineElement | ArrowElement | RectangleElement | EllipseElement

  /** The type-specific part of an element. */
  datatype Shape =
    | TextShape(text: string, originalText: string, fontSize: int, textWidth: real, height: int)
    | LinearShape(points: seq<Point>, width: int, height: int, endArrowhead: bool)
    | BoxShape(width: int, height: int)

  /** The deterministic part of an Excalidraw element (see README for the fields left out). */
  datatype ExcalidrawElement = ExcalidrawElement(
    elementType: ElementType,
    x: int,
    y: int,
    strokeColor: string,
    strokeWidth: int,
    shape: Shape)

  function Abs(n: int): nat {
    if n < 0 then -n else n
  }

  function Max(a: int, b: int): int {
    if a < b then b else a
  }

  /** Where a line or arrow ends: endX || x + 100, and endY || y for a line, endY || y + 50 for an arrow. */
  function LinearEnd(i: DrawingInstruction): (p: Point)
    requires i.kind == Line || i.kind == Arrow
    ensures i.endX.Some? && i.endX.value != 0 ==> p.0 == i.endX.value
    ensures (i.endX == None || i.endX == Some(0)) ==> p.0 == i.x + 100
    ensures i.endY.Some? && i.endY.value != 0 ==> p.1 == i.endY.value
    ensures (i.endY == None || i.endY == Some(0)) ==> p.1 == (if i.kind == Arrow then i.y + 50 else i.y)
  {
    (OrNumber(i.endX, i.x + 100), OrNumber(i.endY, if i.kind == Arrow then i.y + 50 else i.y))
  }

  function Linear(i: DrawingInstruction): Shape
    requires i.kind == Line || i.kind == Arrow
  {
    var (endX, endY) := LinearEnd(i);
    LinearShape([(0, 0), (endX - i.x, endY - i.y)], Max(Abs(endX - i.x), 1), Max(Abs(endY - i.y), 1), i.kind == Arrow)
  }

  /**
   * createExcalidrawElement: the element keeps the instruction's position; a line or arrow
   * is two points, the second reaching the (defaulted) end, with a bounding box at least 1
   * wide and high; boxes default to 100 x 50; an unknown type becomes a text element.
   */
  function CreateExcalidrawElement(i: DrawingInstruction): (e: ExcalidrawElement)
    ensures e.x == i.x && e.y == i.y
    ensures e.strokeColor == OrString(i.color, "#1e1e1e")
    ensures e.strokeWidth == OrNumber(i.strokeWidth, 2)
    ensures i.kind == Text ==>
      && e.elementType == TextElement
      && e.shape == TextShape(OrString(i.content, ""), OrString(i.content, ""), OrNumber(i.fontSize, 16),
                              (|OrString(i.content, "")| as real) * ((OrNumber(i.fontSize, 16) as real) * 0.6),
                              OrNumber(i.fontSize, 16))
    ensures i.kind.Other? ==>
      && e.elementType == TextElement
      && e.shape == TextShape(OrString(i.content, "Unknown element"), OrString(i.content, "Unknown element"), 16,
                              (|OrString(i.content, "Unknown element")| * 10) as real, 16)
    ensures i.kind == Line || i.kind == Arrow ==>
      && e.elementType == (if i.kind == Line then LineElement else ArrowElement)
      && e.shape.LinearShape? && |e.shape.points| == 2
      && e.shape.points[0] == (0, 0)
      && (e.x + e.shape.points[1].0, e.y + e.shape.points[1].1) == LinearEnd(i)
      && e.shape.width == Max(Abs(e.shape.points[1].0), 1) >= 1
      && e.shape.height == Max(Abs(e.shape.points[1].1), 1) >= 1
      && e.shape.endArrowhead == (i.kind == Arrow)
    ensures i.kind == Rectangle || i.kind == Ellipse ==>
      && e.elementType == (if i.kind == Rectangle then RectangleElement else EllipseElement)
      && e.shape == BoxShape(OrNumber(i.width, 100), OrNumber(i.height, 50))
  {
    var strokeColor := OrString(i.color, "#1e1e1e");
    var strokeWidth := OrNumber(i.strokeWidth, 2);
    match i.kind
    case Text =>
      var text := OrString(i.content, "");
      var size := OrNumber(i.fontSize, 16);
      ExcalidrawElement(TextElement, i.x, i.y, strokeColor, strokeWidth,
                        TextShape(text, text, size, (|text| as real) * ((size as real) * 0.6), size))
    case Line => ExcalidrawElement(LineElement, i.x, i.y, strokeColor, strokeWidth, Linear(i))
    case Arrow => ExcalidrawElement(ArrowElement, i.x, i.y, strokeColor, strokeWidth, Linear(i))
    case Rectangle =>
      ExcalidrawElement(RectangleElement, i.x, i.y, strokeColor, strokeWidth,
                        BoxShape(OrNumber(i.width, 100), OrNumber(i.height, 50)))
    case Ellipse =>
      ExcalidrawElement(EllipseElement, i.x, i.y, strokeColor, strokeWidth,
                        BoxShape(OrNumber(i.width, 100), OrNumber(i.height, 50)))
    case Other(_) =>
      var text := OrString(i.content, "Unknown element");
      ExcalidrawElement(TextElement, i.x, i.y, strokeColor, strokeWidth,
                        TextShape(text, text, 16, (|text| * 10) as real, 16))
  }

  /** An explicit, non-zero end point survives conversion exactly. */
  lemma LinearEndKept(i: DrawingInstruction)
    requires i.kind == Line || i.kind == Arrow
    requires i.endX.Some? && i.endX.value != 0 && i.endY.Some? && i.endY.value != 0
    ensures var e := CreateExcalidrawElement(i);
      e.shape.LinearShape? && e.shape.points[1] == (i.endX.value - i.x, i.endY.value - i.y)
  {
  }

  /** convertToExcalidrawElements: one element per instruction, in the same order. */
  function ConvertToExcalidrawElements(instructions: seq<DrawingInstruction>): (r: seq<ExcalidrawElement>)
    ensures |r| == |instructions|
    ensures forall k :: 0 <= k < |r| ==> r[k] == CreateExcalidrawElement(instructions[k])
  {
    seq(|instructions|, k requires 0 <= k < |instructions| => CreateExcalidrawElement(instructions[k]))
  }

  /** Converting a concatenation converts each part. */
  lemma ConvertAppend(a: seq<DrawingInstruction>, b: seq<DrawingInstruction>)
    ensures ConvertToExcalidrawElements(a + b) == ConvertToExcalidrawElements(a) + ConvertToExcalidrawElements(b)
  {
    var l := ConvertToExcalidrawElements(a + b);
    var r := ConvertToExcalidrawElements(a) + ConvertToExcalidrawElements(b);
    assert |l| == |r|;
    forall k | 0 <= k < |l| ensures l[k] == r[k] {
      if k < |a| {
        assert (a + b)[k] == a[k];
      } else {
        assert (a + b)[k] == b[k - |a|];
      }
    }
  }

  // ----- groupElementsByDelay -----

  datatype DelayGroup = DelayGroup(delay: int, elements: seq<ExcalidrawElement>)

  /** The instructions whose key is d, in input order. */
  function WithDelay(instructions: seq<DrawingInstruction>, d: int): seq<DrawingInstruction>
  {
    if instructions == [] then []
    else
      var last := instructions[|instructions| - 1];
      WithDelay(instructions[..|instructions| - 1], d) + (if DelayOf(last) == d then [last] else [])
  }

  /** The keys that occur in a list of instructions. */
  function DelayKeys(instructions: seq<DrawingInstruction>): set<int> {
    set j | 0 <= j < |instructions| :: DelayOf(instructions[j])
  }

  function Delays(groups: seq<DelayGroup>): set<int> {
    set g | g in groups :: g.delay
  }

  /**
   * What groupElementsByDelay promises: the groups are in strictly increasing delay order,
   * there is a group for exactly the keys that occur, and each group holds the elements of
   * the instructions with its key, in input order.
   */
  predicate IsDelayGrouping(instructions: seq<DrawingInstruction>, groups: seq<DelayGroup>) {
    && (forall a, b :: 0 <= a < b < |groups| ==> groups[a].delay < groups[b].delay)
    && Delays(groups) == DelayKeys(instructions)
    && (forall g :: g in groups ==> g.elements == ConvertToExcalidrawElements(WithDelay(instructions, g.delay)))
  }

  lemma DelayKeysStep(instructions: seq<DrawingInstruction>, index: nat)
    requires index < |instructions|
    ensures DelayKeys(instructions[..index + 1]) == DelayKeys(instructions[..index]) + {DelayOf(instructions[index])}
  {
    var done := instructions[..index + 1];
    forall d | d in DelayKeys(done) ensures d in DelayKeys(instructions[..index]) + {DelayOf(instructions[index])} {
      var j :| 0 <= j < |done| && DelayOf(done[j]) == d;
      if j < index {
        assert done[j] == instructions[..index][j];
      }
    }
    forall d | d in DelayKeys(instructions[..index]) ensures d in DelayKeys(done) {
      var j :| 0 <= j < index && DelayOf(instructions[..index][j]) == d;
      assert done[j] == instructions[..index][j];
    }
    assert DelayOf(done[index]) in DelayKeys(done);
  }

  lemma WithDelayStep(instructions: seq<DrawingInstruction>, index: nat, d: int)
    requires index < |instructions|
    ensures WithDelay(instructions[..index + 1], d)
            == WithDelay(instructions[..index], d) + (if DelayOf(instructions[index]) == d then [instructions[index]] else [])
  {
    assert instructions[..index + 1][..index] == instructions[..index];
  }

  lemma NonEmptyHasMember(s: set<int>)
    requires s != {}
    ensures exists x :: x in s
  {
    if forall x :: x !in s {
      assert false;
    }
  }

  /** The least element of a non-empty set of delays. */
  method Least(s: set<int>) returns (m: int)
    requires s != {}
    ensures m in s
    ensures forall x :: x in s ==> m <= x
  {
    NonEmptyHasMember(s);
    m :| m in s;
    var rest := s - {m};
    while rest != {}
      invariant rest <= s && m in s
      invariant forall x :: x in s && x !in rest ==> m <= x
      decreases rest
    {
      NonEmptyHasMember(rest);
      var y :| y in rest;
      if y < m {
        m := y;
      }
      rest := rest - {y};
    }
  }

  /**
   * groupElementsByDelay: fills a table from delay to elements in one pass, then lists the
   * table's entries by ascending delay (Object.entries followed by sort).
   */
  method GroupElementsByDelay(instructions: seq<DrawingInstruction>) returns (groups: seq<DelayGroup>)
    ensures IsDelayGrouping(instructions, groups)
  {
    var table: map<int, seq<ExcalidrawElement>> := map[];
    var index := 0;
    while index < |instructions|
      invariant 0 <= index <= |instructions|
      invariant table.Keys == DelayKeys(instructions[..index])
      invariant forall d :: d in table ==> table[d] == ConvertToExcalidrawElements(WithDelay(instructions[..index], d))
      invariant forall d :: d !in table ==> WithDelay(instructions[..index], d) == []
    {
      var instruction := instructions[index];
      var delay := DelayOf(instruction);
      ghost var before := table;
      if delay !in table {
        table := table[delay := []];
      }
      table := table[delay := table[delay] + [CreateExcalidrawElement(instruction)]];
      DelayKeysStep(instructions, index);
      forall d | d in table
        ensures table[d] == ConvertToExcalidrawElements(WithDelay(instructions[..index + 1], d))
      {
        WithDelayStep(instructions, index, d);
        if d == delay {
          ConvertAppend(WithDelay(instructions[..index], d), [instruction]);
        }
      }
      forall d | d !in table
        ensures WithDelay(instructions[..index + 1], d) == []
      {
        WithDelayStep(instructions, index, d);
      }
      index := index + 1;
    }
    assert instructions[..index] == instructions;
    groups := SortedEntries(table);
  }

  /** The keys of a table in ascending order. */
  method SortedKeys(keys: set<int>) returns (sorted: seq<int>)
    ensures forall a, b :: 0 <= a < b < |sorted| ==> sorted[a] < sorted[b]
    ensures forall d :: d in sorted <==> d in keys
  {
    sorted := [];
    var pending := keys;
    while pending != {}
      invariant pending <= keys
      invariant forall d :: d in keys <==> d in sorted || d in pending
      invariant forall a, b :: 0 <= a < b < |sorted| ==> sorted[a] < sorted[b]
      invariant forall a, d :: 0 <= a < |sorted| && d in pending ==> sorted[a] < d
      decreases pending
    {
      var least := Least(pending);
      sorted := sorted + [least];
      pending := pending - {least};
    }
  }

  /** Object.entries(table).sort by numeric key: one group per entry, by ascending delay. */
  method SortedEntries(table: map<int, seq<ExcalidrawElement>>) returns (groups: seq<DelayGroup>)
    ensures forall a, b :: 0 <= a < b < |groups| ==> groups[a].delay < groups[b].delay
    ensures Delays(groups) == table.Keys
    ensures forall g :: g in groups ==> g.delay in table && g.elements == table[g.delay]
  {
    var keys := SortedKeys(table.Keys);
    assert forall k :: 0 <= k < |keys| ==> keys[k] in table by {
      forall k | 0 <= k < |keys| ensures keys[k] in table {
        assert keys[k] in keys;
      }
    }
    groups := seq(|keys|, k requires 0 <= k < |keys| => DelayGroup(keys[k], table[keys[k]]));
    forall d | d in table.Keys ensures d in Delays(groups) {
      var k :| 0 <= k < |keys| && keys[k] == d;
      assert groups[k].delay == d;
    }
  }

  /** The total number of elements over all groups. */
  function TotalSize(groups: seq<DelayGroup>): nat {
    if groups == [] then 0 else |groups[0].elements| + TotalSize(groups[1..])
  }

  /** How many instructions have a key in keys. */
  function CountWithKeyIn(instructions: seq<DrawingInstruction>, keys: set<int>): nat {
    if instructions == [] then 0
    else
      CountWithKeyIn(instructions[..|instructions| - 1], keys)
      + (if DelayOf(instructions[|instructions| - 1]) in keys then 1 else 0)
  }

  lemma {:induction false} CountWithKeyInSplit(instructions: seq<DrawingInstruction>, d: int, keys: set<int>)
    requires d !in keys
    ensures CountWithKeyIn(instructions, keys + {d}) == |WithDelay(instructions, d)| + CountWithKeyIn(instructions, keys)
  {
    if instructions != [] {
      CountWithKeyInSplit(instructions[..|instructions| - 1], d, keys);
    }
  }

  lemma {:induction false} CountWithKeyInAll(instructions: seq<DrawingInstruction>, keys: set<int>)
    requires DelayKeys(instructions) <= keys
    ensures CountWithKeyIn(instructions, keys) == |instructions|
  {
    if instructions != [] {
      var n := |instructions|;
      var front := instructions[..n - 1];
      forall d | d in DelayKeys(front) ensures d in keys {
        var j :| 0 <= j < |front| && DelayOf(front[j]) == d;
        assert front[j] == instructions[j];
      }
      CountWithKeyInAll(front, keys);
      assert DelayOf(instructions[n - 1]) in DelayKeys(instructions);
    }
  }

  lemma {:induction false} TotalSizeCounts(instructions: seq<DrawingInstruction>, groups: seq<DelayGroup>)
    requires forall a, b :: 0 <= a < b < |groups| ==> groups[a].delay < groups[b].delay
    requires forall g :: g in groups ==> |g.elements| == |WithDelay(instructions, g.delay)|
    ensures TotalSize(groups) == CountWithKeyIn(instructions, Delays(groups))
  {
    if groups == [] {
      assert Delays(groups) == {};
      CountWithKeyInNone(instructions);
    } else {
      var rest := groups[1..];
      TotalSizeCounts(instructions, rest);
      assert Delays(groups) == Delays(rest) + {groups[0].delay} by {
        forall d | d in Delays(groups) ensures d in Delays(rest) + {groups[0].delay} {
          var g :| g in groups && g.delay == d;
          var a :| 0 <= a < |groups| && groups[a] == g;
          if a > 0 {
            assert rest[a - 1] == g;
          }
        }
      }
      assert groups[0].delay !in Delays(rest);
      CountWithKeyInSplit(instructions, groups[0].delay, Delays(rest));
    }
  }

  lemma {:induction false} CountWithKeyInNone(instructions: seq<DrawingInstruction>)
    ensures CountWithKeyIn(instructions, {}) == 0
  {
    if instructions != [] {
      CountWithKeyInNone(instructions[..|instructions| - 1]);
    }
  }

  /** The groups partition the input: their sizes add up to the number of instructions. */
  lemma GroupingIsPartition(instructions: seq<DrawingInstruction>, groups: seq<DelayGroup>)
    requires IsDelayGrouping(instructions, groups)
    ensures TotalSize(groups) == |instructions|
  {
    TotalSizeCounts(instructions, groups);
    CountWithKeyInAll(instructions, Delays(groups));
  }

  /** The instructions kept under key d all have that key, and none with that key is dropped. */
  lemma {:induction false} WithDelaySelects(instructions: seq<DrawingInstruction>, d: int)
    ensures forall x :: x in WithDelay(instructions, d) ==> DelayOf(x) == d
    ensures forall j :: 0 <= j < |instructions| && DelayOf(instructions[j]) == d ==>
              instructions[j] in WithDelay(instructions, d)
  {
    if instructions != [] {
      var n := |instructions|;
      WithDelaySelects(instructions[..n - 1], d);
      forall j | 0 <= j < n - 1 ensures instructions[j] == instructions[..n - 1][j] {
      }
    }
  }

  /** Every instruction's element lands in the group keyed by its delay. */
  lemma InstructionInItsGroup(instructions: seq<DrawingInstruction>, groups: seq<DelayGroup>, j: int)
    requires IsDelayGrouping(instructions, groups)
    requires 0 <= j < |instructions|
    ensures exists g :: g in groups && g.delay == DelayOf(instructions[j])
                        && CreateExcalidrawElement(instructions[j]) in g.elements
  {
    var d := DelayOf(instructions[j]);
    assert d in DelayKeys(instructions);
    var g :| g in groups && g.delay == d;
    WithDelaySelects(instructions, d);
    var w := WithDelay(instructions, d);
    var k :| 0 <= k < |w| && w[k] == instructions[j];
    assert g.elements[k] == CreateExcalidrawElement(instructions[j]);
  }

  // ----- formatMathText -----

  /** pat occurs somewhere in s. */
  predicate Occurs(pat: string, s: string)
    decreases |s|
  {
    |pat| <= |s| && (s[..|pat|] == pat || Occurs(pat, s[1..]))
  }

  /** No character p in s is immediately followed by q. */
  predicate NoPair(s: string, p: char, q: char) {
    forall i :: 0 <= i < |s| - 1 ==> !(s[i] == p && s[i + 1] == q)
  }

  /** s.replace(/pat/g, rep) for a literal pattern: left to right, non-overlapping. */
  function ReplaceAll(s: string, pat: string, rep: char): (r: string)
    requires |pat| > 0
    ensures s != [] ==> r != [] && (r[0] == s[0] || r[0] == rep)
    decreases |s|
  {
    if |s| < |pat| then s
    else if s[..|pat|] == pat then [rep] + ReplaceAll(s[|pat|..], pat, rep)
    else [s[0]] + ReplaceAll(s[1..], pat, rep)
  }

  /** A JavaScript line terminator, which the regular expression `.` does not match. */
  predicate IsLineTerminator(c: char) {
    c == '\n' || c == '\r' || c == '\U{2028}' || c == '\U{2029}'
  }

  /** The index of the first ')' at or after from, unless a line terminator or the end comes first. */
  function CloseParen(s: string, from: nat): (r: Option<nat>)
    ensures r.Some? ==> from <= r.value < |s| && s[r.value] == ')'
    ensures r.Some? ==> forall k :: from <= k < r.value ==> s[k] != ')' && !IsLineTerminator(s[k])
    ensures r.None? ==> forall k :: from <= k < |s| && s[k] == ')' ==> exists m :: from <= m < k && IsLineTerminator(s[m])
    decreases |s| - from
  {
    if from >= |s| then None
    else if s[from] == ')' then Some(from)
    else if IsLineTerminator(s[from]) then None
    else CloseParen(s, from + 1)
  }

  /** s.replace(/sqrt\((.*?)\)/g, '√($1)'): the lazy group stops at the first ')' on the same line. */
  function RewriteSqrt(s: string): (r: string)
    ensures s != [] ==> r != [] && (r[0] == s[0] || r[0] == '\U{221A}')
    decreases |s|
  {
    if s == [] then []
    else if |s| >= 5 && s[..5] == "sqrt(" && CloseParen(s, 5).Some? then
      var j := CloseParen(s, 5).value;
      "\U{221A}(" + s[5..j] + ")" + RewriteSqrt(s[j + 1..])
    else [s[0]] + RewriteSqrt(s[1..])
  }

  /** formatMathText: the fixed chain of replacements, in the source's order. */
  function FormatMathText(text: string): (r: string)
    ensures text != [] ==> r != []
  {
    var s := ReplaceAll(text, "**", '^');
    var s := RewriteSqrt(s);
    var s := ReplaceAll(s, "pi", '\U{3C0}');
    var s := ReplaceAll(s, "alpha", '\U{3B1}');
    var s := ReplaceAll(s, "beta", '\U{3B2}');
    var s := ReplaceAll(s, "gamma", '\U{3B3}');
    var s := ReplaceAll(s, "theta", '\U{3B8}');
    var s := ReplaceAll(s, "delta", '\U{3B4}');
    var s := ReplaceAll(s, "sum", '\U{2211}');
    var s := ReplaceAll(s, "integral", '\U{222B}');
    ReplaceAll(s, "infinity", '\U{221E}')
  }

  /** The text contains one of the notations formatMathText rewrites. */
  predicate HasMathNotation(text: string) {
    Occurs("**", text) || Occurs("sqrt(", text) || Occurs("pi", text) || Occurs("alpha", text)
    || Occurs("beta", text) || Occurs("gamma", text) || Occurs("theta", text) || Occurs("delta", text)
    || Occurs("sum", text) || Occurs("integral", text) || Occurs("infinity", text)
  }

  lemma {:induction false} ReplaceAllAbsent(s: string, pat: string, rep: char)
    requires |pat| > 0 && !Occurs(pat, s)
    ensures ReplaceAll(s, pat, rep) == s
    decreases |s|
  {
    if |s| >= |pat| {
      ReplaceAllAbsent(s[1..], pat, rep);
      assert [s[0]] + s[1..] == s;
    }
  }

  lemma {:induction false} RewriteSqrtAbsent(s: string)
    requires !Occurs("sqrt(", s)
    ensures RewriteSqrt(s) == s
    decreases |s|
  {
    if s != [] {
      if |s| >= 5 {
        RewriteSqrtAbsent(s[1..]);
      } else {
        assert !Occurs("sqrt(", s[1..]);
        RewriteSqrtAbsent(s[1..]);
      }
      assert [s[0]] + s[1..] == s;
    }
  }

  /** CloseParen finds the first ')' when no line terminator comes before it. */
  lemma {:induction false} CloseParenFirst(s: string, from: nat, j: nat)
    requires from <= j < |s| && s[j] == ')'
    requires forall k :: from <= k < j ==> s[k] != ')' && !IsLineTerminator(s[k])
    ensures CloseParen(s, from) == Some(j)
    decreases j - from
  {
    if from < j {
      CloseParenFirst(s, from + 1, j);
    }
  }

  /** `sqrt(x)` with x on one line and free of ')' becomes `√(x)`, and the rewrite goes on after it. */
  lemma RewriteSqrtMatch(x: string, rest: string)
    requires forall k :: 0 <= k < |x| ==> x[k] != ')' && !IsLineTerminator(x[k])
    ensures RewriteSqrt("sqrt(" + x + ")" + rest) == "\U{221A}(" + x + ")" + RewriteSqrt(rest)
  {
    var s := "sqrt(" + x + ")" + rest;
    var j := 5 + |x|;
    assert s[..5] == "sqrt(";
    assert s[j] == ')';
    assert forall k :: 5 <= k < j ==> s[k] == x[k - 5];
    CloseParenFirst(s, 5, j);
    assert s[5..j] == x;
    assert s[j + 1..] == rest;
  }

  /** Text without any of the notations comes back unchanged. */
  lemma FormatMathTextUnchanged(text: string)
    requires !HasMathNotation(text)
    ensures FormatMathText(text) == text
  {
    ReplaceAllAbsent(text, "**", '^');
    RewriteSqrtAbsent(text);
    ReplaceAllAbsent(text, "pi", '\U{3C0}');
    ReplaceAllAbsent(text, "alpha", '\U{3B1}');
    ReplaceAllAbsent(text, "beta", '\U{3B2}');
    ReplaceAllAbsent(text, "gamma", '\U{3B3}');
    ReplaceAllAbsent(text, "theta", '\U{3B8}');
    ReplaceAllAbsent(text, "delta", '\U{3B4}');
    ReplaceAllAbsent(text, "sum", '\U{2211}');
    ReplaceAllAbsent(text, "integral", '\U{222B}');
    ReplaceAllAbsent(text, "infinity", '\U{221E}');
  }

  lemma NoPairCons(c: char, t: string, p: char, q: char)
    requires NoPair(t, p, q)
    requires t != [] ==> !(c == p && t[0] == q)
    ensures NoPair([c] + t, p, q)
  {
    var s := [c] + t;
    forall i | 1 <= i < |s| - 1 ensures !(s[i] == p && s[i + 1] == q) {
      assert s[i] == t[i - 1] && s[i + 1] == t[i];
    }
  }

  lemma NoPairSuffix(s: string, k: nat, p: char, q: char)
    requires NoPair(s, p, q) && k <= |s|
    ensures NoPair(s[k..], p, q)
  {
    var t := s[k..];
    forall i | 0 <= i < |t| - 1 ensures !(t[i] == p && t[i + 1] == q) {
      assert t[i] == s[k + i] && t[i + 1] == s[k + i + 1];
    }
  }

  /** After replacing the two-character pattern [p, q] by a character other than p and q, no p is followed by q. */
  lemma {:induction false} ReplaceAllRemovesPair(s: string, p: char, q: char, rep: char)
    requires rep != p && rep != q
    ensures NoPair(ReplaceAll(s, [p, q], rep), p, q)
    decreases |s|
  {
    if |s| >= 2 {
      if s[..2] == [p, q] {
        ReplaceAllRemovesPair(s[2..], p, q, rep);
        NoPairCons(rep, ReplaceAll(s[2..], [p, q], rep), p, q);
      } else {
        ReplaceAllRemovesPair(s[1..], p, q, rep);
        assert s[1..] != [] && s[1..][0] == s[1];
        NoPairCons(s[0], ReplaceAll(s[1..], [p, q], rep), p, q);
      }
    }
  }

  /** Replacing a pattern by a character other than p and q never makes a p followed by q. */
  lemma {:induction false} ReplaceAllKeepsNoPair(s: string, pat: string, rep: char, p: char, q: char)
    requires |pat| > 0 && rep != p && rep != q && NoPair(s, p, q)
    ensures NoPair(ReplaceAll(s, pat, rep), p, q)
    decreases |s|
  {
    if |s| >= |pat| {
      if s[..|pat|] == pat {
        NoPairSuffix(s, |pat|, p, q);
        ReplaceAllKeepsNoPair(s[|pat|..], pat, rep, p, q);
        NoPairCons(rep, ReplaceAll(s[|pat|..], pat, rep), p, q);
      } else {
        NoPairSuffix(s, 1, p, q);
        ReplaceAllKeepsNoPair(s[1..], pat, rep, p, q);
        assert |s| > 1 ==> s[1..][0] == s[1];
        NoPairCons(s[0], ReplaceAll(s[1..], pat, rep), p, q);
      }
    }
  }

  /** Gluing a slice of s that ends at s[j] to a pair-free text that starts like s[j + 1..] creates no pair. */
  lemma SliceThenRestNoPair(s: string, lo: nat, j: nat, rest: string, p: char, q: char)
    requires lo <= j < |s| && NoPair(s, p, q) && NoPair(rest, p, q) && q != '\U{221A}'
    requires rest != [] ==> j + 1 < |s| && (rest[0] == s[j + 1] || rest[0] == '\U{221A}')
    ensures NoPair(s[lo..j + 1] + rest, p, q)
  {
    var a := s[lo..j + 1];
    var u := a + rest;
    forall i | 0 <= i < |u| - 1 ensures !(u[i] == p && u[i + 1] == q) {
      if i < |a| - 1 {
        assert u[i] == s[lo + i] && u[i + 1] == s[lo + i + 1];
      } else if i == |a| - 1 {
        assert u[i] == s[j] && u[i + 1] == rest[0];
      } else {
        assert u[i] == rest[i - |a|] && u[i + 1] == rest[i + 1 - |a|];
      }
    }
  }

  /** The sqrt rewrite never makes a p followed by q when neither is the root sign. */
  lemma {:induction false} RewriteSqrtKeepsNoPair(s: string, p: char, q: char)
    requires p != '\U{221A}' && q != '\U{221A}' && NoPair(s, p, q)
    ensures NoPair(RewriteSqrt(s), p, q)
    decreases |s|
  {
    if s != [] {
      if |s| >= 5 && s[..5] == "sqrt(" && CloseParen(s, 5).Some? {
        var j := CloseParen(s, 5).value;
        var rest := RewriteSqrt(s[j + 1..]);
        NoPairSuffix(s, j + 1, p, q);
        RewriteSqrtKeepsNoPair(s[j + 1..], p, q);
        var a := s[4..j + 1];
        assert a == "(" + s[5..j] + ")" by {
          assert s[4] == s[..5][4] == '(';
          assert |a| == |s[5..j]| + 2;
        }
        assert "\U{221A}(" + s[5..j] + ")" + rest == ['\U{221A}'] + (a + rest);
        if rest != [] {
          assert s[j + 1..][0] == s[j + 1];
        }
        SliceThenRestNoPair(s, 4, j, rest, p, q);
        NoPairCons('\U{221A}', a + rest, p, q);
      } else {
        NoPairSuffix(s, 1, p, q);
        RewriteSqrtKeepsNoPair(s[1..], p, q);
        assert |s| > 1 ==> s[1..][0] == s[1];
        NoPairCons(s[0], RewriteSqrt(s[1..]), p, q);
      }
    }
  }


  /** In the formatted text no '*' is followed by '*' and no 'p' by 'i': every ** and every pi was rewritten. */
  lemma FormatMathTextRewrites(text: string)
    ensures NoPair(FormatMathText(text), '*', '*')
    ensures NoPair(FormatMathText(text), 'p', 'i')
  {
    var s1 := ReplaceAll(text, "**", '^');
    ReplaceAllRemovesPair(text, '*', '*', '^');
    var s2 := RewriteSqrt(s1);
    RewriteSqrtKeepsNoPair(s1, '*', '*');
    var s3 := ReplaceAll(s2, "pi", '\U{3C0}');
    ReplaceAllKeepsNoPair(s2, "pi", '\U{3C0}', '*', '*');
    ReplaceAllRemovesPair(s2, 'p', 'i', '\U{3C0}');
    var s4 := ReplaceAll(s3, "alpha", '\U{3B1}');
    ReplaceAllKeepsNoPair(s3, "alpha", '\U{3B1}', '*', '*');
    ReplaceAllKeepsNoPair(s3, "alpha", '\U{3B1}', 'p', 'i');
    var s5 := ReplaceAll(s4, "beta", '\U{3B2}');
    ReplaceAllKeepsNoPair(s4, "beta", '\U{3B2}', '*', '*');
    ReplaceAllKeepsNoPair(s4, "beta", '\U{3B2}', 'p', 'i');
    var s6 := ReplaceAll(s5, "gamma", '\U{3B3}');
    ReplaceAllKeepsNoPair(s5, "gamma", '\U{3B3}', '*', '*');
    ReplaceAllKeepsNoPair(s5, "gamma", '\U{3B3}', 'p', 'i');
    var s7 := ReplaceAll(s6, "theta", '\U{3B8}');
    ReplaceAllKeepsNoPair(s6, "theta", '\U{3B8}', '*', '*');
    ReplaceAllKeepsNoPair(s6, "theta", '\U{3B8}', 'p', 'i');
    var s8 := ReplaceAll(s7, "delta", '\U{3B4}');
    ReplaceAllKeepsNoPair(s7, "delta", '\U{3B4}', '*', '*');
    ReplaceAllKeepsNoPair(s7, "delta", '\U{3B4}', 'p', 'i');
    var s9 := ReplaceAll(s8, "sum", '\U{2211}');
    ReplaceAllKeepsNoPair(s8, "sum", '\U{2211}', '*', '*');
    ReplaceAllKeepsNoPair(s8, "sum", '\U{2211}', 'p', 'i');
    var s10 := ReplaceAll(s9, "integral", '\U{222B}');
    ReplaceAllKeepsNoPair(s9, "integral", '\U{222B}', '*', '*');
    ReplaceAllKeepsNoPair(s9, "integral", '\U{222B}', 'p', 'i');
    ReplaceAllKeepsNoPair(s10, "infinity", '\U{221E}', '*', '*');
    ReplaceAllKeepsNoPair(s10, "infinity", '\U{221E}', 'p', 'i');
  }

  // ----- layout helpers -----

  /** getNextPosition(currentY, spacing = 40): the left margin, spacing below currentY. */
  function GetNextPosition(currentY: int, spacing: Option<int>): (p: Point)
    ensures p.0 == 100
    ensures spacing == None ==> p.1 == currentY + 40
    ensures spacing.Some? ==> p.1 == currentY + spacing.value
  {
    (100, currentY + (if spacing.Some? then spacing.value else 40))
  }

  /**
   * createSeparator(x, y, width, color = '#d1d5db'): a horizontal line of stroke width 1
   * reaching x + width; when x + width is 0 the line's end defaulting takes over and it
   * reaches x + 100 instead.
   */
  function CreateSeparator(x: int, y: int, width: int, color: Option<string>): (e: ExcalidrawElement)
    ensures e.elementType == LineElement && e.x == x && e.y == y && e.strokeWidth == 1
    ensures color == None ==> e.strokeColor == "#d1d5db"
    ensures color == Some("") ==> e.strokeColor == "#1e1e1e"
    ensures color.Some? && color.value != "" ==> e.strokeColor == color.value
    ensures e.shape.LinearShape? && e.shape.points == [(0, 0), (if x + width != 0 then width else 100, 0)]
    ensures e.shape.width == Max(Abs(e.shape.points[1].0), 1) && e.shape.height == 1
  {
    var c := if color.Some? then color.value else "#d1d5db";
    CreateExcalidrawElement(DrawingInstruction(Line, None, x, y, None, None, Some(x + width), Some(y),
                                               None, Some(c), Some(1), None))
  }

}
