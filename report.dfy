/** The text that `SlabApp.calculate` puts in the result label: one of the
    two warnings, or the report with the optional steel-code line, the
    summary, the real cut lengths, the rounded cut centres and the marking
    diagram `H-1번(m1)--2번(m2)-…T`. How a real number is printed with one
    decimal and thousands separators (`:,.1f`) and how `str(float)` prints
    one are passed in as functions; integers are printed exactly. */
module Report {
  import opened Numbers
  import opened Slab

  const SlabErrorText: string := "⚠️ 실제 Slab 길이를 올바르게 입력하세요."
  const GuideErrorText: string := "⚠️ 최소 2개 이상의 지시길이를 입력하세요."
  const Mm: string := " mm"
  const CodeLabel: string := "▶ 강번: "
  const LengthsHeader: string := "▶ 각 Slab별 실제 절단 길이:"
  const VisualHeader: string := "▶ 시각화 (실제 마킹 위치):"

  // ---------------------------------------------------------------------
  // The marking diagram

  /** `f"-{i}번({mark})-"` */
  function Chunk(index: nat, mark: int): (c: string)
    ensures |c| >= 6 && c[0] == '-' && c[|c| - 1] == '-'
    ensures |NatText(index)| + 1 <= |c| && c[1..1 + |NatText(index)|] == NatText(index)
  {
    var c := "-" + NatText(index) + "번(" + IntText(mark) + ")-";
    assert c == "-" + (NatText(index) + ("번(" + IntText(mark) + ")-"));
    c
  }

  /** The chunks of `marks`, numbered from `from`. */
  function Chunks(marks: seq<int>, from: nat): string
    decreases |marks|
  {
    if marks == [] then [] else Chunk(from, marks[0]) + Chunks(marks[1..], from + 1)
  }

  lemma {:induction false} ChunksAppend(marks: seq<int>, m: int, from: nat)
    ensures Chunks(marks + [m], from) == Chunks(marks, from) + Chunk(from + |marks|, m)
    decreases |marks|
  {
    if marks == [] {
      assert [m][1..] == [];
    } else {
      assert (marks + [m])[1..] == marks[1..] + [m];
      ChunksAppend(marks[1..], m, from + 1);
    }
  }

  /** The diagram: segment chunks in order between the head `H` and the
      tail `T` of the slab. */
  function Visual(marks: seq<int>): (v: string)
    ensures |v| >= 2 && v[0] == 'H' && v[|v| - 1] == 'T'
  {
    "H" + Chunks(marks, 1) + "T"
  }

  lemma DrawStep(marks: seq<int>, i: nat)
    requires i < |marks|
    ensures "H" + Chunks(marks[..i], 1) + Chunk(i + 1, marks[i]) == "H" + Chunks(marks[..i + 1], 1)
  {
    assert marks[..i + 1] == marks[..i] + [marks[i]];
    ChunksAppend(marks[..i], marks[i], 1);
  }

  /** The loop `visual="H"; for i,r in enumerate(real,1): visual+=...;
      visual+="T"`, proved to draw the diagram of the segments' marks. */
  method DrawVisual(lengths: seq<real>, loss: real) returns (visual: string)
    ensures visual == Visual(Marks(lengths, loss))
  {
    ghost var marks := Marks(lengths, loss);
    visual := "H";
    var i := 0;
    while i < |lengths|
      invariant 0 <= i <= |lengths|
      invariant visual == "H" + Chunks(marks[..i], 1)
    {
      var mark := RoundHalfUp(lengths[i] + loss / 2.0);
      assert mark == marks[i];
      DrawStep(marks, i);
      visual := visual + Chunk(i + 1, mark);
      i := i + 1;
    }
    assert marks[..i] == marks;
    visual := visual + "T";
  }

  /** Reads the chunks numbered from `from`, up to the tail `T`. */
  function ReadChunks(s: string, from: nat): Option<seq<int>>
    decreases |s|
  {
    if s == "T" then Some([])
    else
      var head := "-" + NatText(from) + "번(";
      if |s| < |head| || s[..|head|] != head then None
      else
        var rest := s[|head|..];
        var j := FirstIndexOf(rest, ')');
        if j + 1 >= |rest| || rest[j + 1] != '-' then None
        else
          match ParseInt(rest[..j])
          case None => None
          case Some(m) =>
            match ReadChunks(rest[j + 2..], from + 1)
            case None => None
            case Some(ms) => Some([m] + ms)
  }

  /** Reads the marks back off a diagram. */
  function ReadVisual(v: string): Option<seq<int>>
  {
    if v != [] && v[0] == 'H' then ReadChunks(v[1..], 1) else None
  }

  lemma ChunkHead(from: nat, m: int, tail: string)
    ensures var head := "-" + NatText(from) + "번(";
            var s := Chunk(from, m) + tail;
            s != "T" && |head| <= |s| && s[..|head|] == head
            && s[|head|..] == IntText(m) + ")-" + tail
  {
    var head := "-" + NatText(from) + "번(";
    var s := Chunk(from, m) + tail;
    assert s == head + (IntText(m) + ")-" + tail);
    assert s[0] == '-';
  }

  lemma ChunkNumber(m: int, tail: string)
    ensures var num := IntText(m);
            var rest := num + ")-" + tail;
            FirstIndexOf(rest, ')') == |num| && |num| + 1 < |rest| && rest[|num| + 1] == '-'
            && rest[..|num|] == num && rest[|num| + 2..] == tail
  {
    var num := IntText(m);
    var rest := num + ")-" + tail;
    assert rest[|num|] == ')';
    assert rest[..|num|] == num;
    assert rest[|num| + 2..] == tail;
  }

  /** Reading one chunk off the front of a text. */
  lemma ReadOneChunk(from: nat, m: int, tail: string)
    ensures ReadChunks(Chunk(from, m) + tail, from)
         == match ReadChunks(tail, from + 1)
            case None => None
            case Some(ms) => Some([m] + ms)
  {
    ChunkHead(from, m, tail);
    ChunkNumber(m, tail);
    ParseIntOfIntText(m);
  }

  lemma {:induction false} ReadChunksOfChunks(marks: seq<int>, from: nat)
    ensures ReadChunks(Chunks(marks, from) + "T", from) == Some(marks)
    decreases |marks|
  {
    if marks == [] {
      assert Chunks(marks, from) + "T" == "T";
    } else {
      var tail := Chunks(marks[1..], from + 1) + "T";
      assert Chunks(marks, from) + "T" == Chunk(from, marks[0]) + tail;
      ReadOneChunk(from, marks[0], tail);
      ReadChunksOfChunks(marks[1..], from + 1);
      assert [marks[0]] + marks[1..] == marks;
    }
  }

  /** The diagram carries every segment's mark, in segment order, and
      nothing else: reading it back gives the marks. */
  lemma ReadVisualOfVisual(marks: seq<int>)
    ensures ReadVisual(Visual(marks)) == Some(marks)
  {
    var v := Visual(marks);
    assert v[1..] == Chunks(marks, 1) + "T";
    ReadChunksOfChunks(marks, 1);
  }

  // ---------------------------------------------------------------------
  // The report

  /** Python's `str` of a list of integers: `[4015, 8045]`. */
  function IntListText(xs: seq<int>): (t: string)
    ensures |t| >= 2 && t[0] == '[' && t[|t| - 1] == ']'
    ensures xs == [] <==> t == "[]"
    ensures xs != [] ==> |IntText(xs[0])| + 1 <= |t| && t[1..1 + |IntText(xs[0])|] == IntText(xs[0])
  {
    var items := IntItems(xs);
    assert xs != [] ==> "[" + items + "]" == "[" + (IntText(xs[0]) + items[|IntText(xs[0])|..] + "]");
    "[" + items + "]"
  }

  function IntItems(xs: seq<int>): (t: string)
    ensures xs == [] <==> t == []
    ensures xs != [] ==> IntText(xs[0]) <= t
  {
    if xs == [] then []
    else if |xs| == 1 then IntText(xs[0])
    else IntText(xs[0]) + ", " + IntItems(xs[1..])
  }

  /** Reads a list of integers written as `[a, b, …]`. */
  function ReadIntList(t: string): Option<seq<int>>
  {
    if |t| >= 2 && t[0] == '[' && t[|t| - 1] == ']' then ReadItems(t[1..|t| - 1]) else None
  }

  /** Reads integers separated by `", "`. */
  function ReadItems(s: string): Option<seq<int>>
    decreases |s|
  {
    if s == [] then Some([])
    else
      var j := FirstIndexOf(s, ',');
      match ParseInt(s[..j])
      case None => None
      case Some(m) =>
        if j == |s| then Some([m])
        else if j + 1 < |s| && s[j + 1] == ' ' then
          match ReadItems(s[j + 2..])
          case None => None
          case Some(ms) => Some([m] + ms)
        else None
  }

  /** A search for `c` passes over a prefix that does not hold it. */
  lemma {:induction false} FirstIndexPast(p: string, tail: string, c: char)
    requires c !in p
    ensures FirstIndexOf(p + tail, c) == |p| + FirstIndexOf(tail, c)
  {
    if p == [] {
      assert p + tail == tail;
    } else {
      assert (p + tail)[0] == p[0] && (p + tail)[1..] == p[1..] + tail;
      FirstIndexPast(p[1..], tail, c);
    }
  }

  lemma NoCommaInIntText(m: int)
    ensures ',' !in IntText(m)
  {
    var t := IntText(m);
    assert forall k :: 0 <= k < |t| ==> t[k] != ',';
  }

  /** Reading one item and its separator off the front of a list. */
  lemma ReadOneItem(m: int, rest: string)
    ensures ReadItems(IntText(m) + ", " + rest)
         == match ReadItems(rest)
            case None => None
            case Some(ms) => Some([m] + ms)
  {
    var num := IntText(m);
    var s := num + ", " + rest;
    NoCommaInIntText(m);
    FirstIndexPast(num, ", " + rest, ',');
    assert s == num + (", " + rest);
    assert s[..|num|] == num && s[|num| + 1] == ' ' && s[|num| + 2..] == rest;
    ParseIntOfIntText(m);
  }

  lemma ReadLastItem(m: int)
    ensures ReadItems(IntText(m)) == Some([m])
  {
    var num := IntText(m);
    NoCommaInIntText(m);
    FirstIndexPast(num, [], ',');
    assert num + [] == num;
    ParseIntOfIntText(m);
  }

  lemma {:induction false} ReadItemsOfItems(xs: seq<int>)
    ensures ReadItems(IntItems(xs)) == Some(xs)
    decreases |xs|
  {
    if |xs| == 1 {
      ReadLastItem(xs[0]);
      assert IntItems(xs) == IntText(xs[0]) && [xs[0]] == xs;
    } else if |xs| > 1 {
      ReadOneItem(xs[0], IntItems(xs[1..]));
      ReadItemsOfItems(xs[1..]);
      assert [xs[0]] + xs[1..] == xs;
    }
  }

  /** The centres list can be read back: the text carries every integer, in
      order, and nothing else. */
  lemma ReadIntListOfIntList(xs: seq<int>)
    ensures ReadIntList(IntListText(xs)) == Some(xs)
  {
    var t := IntListText(xs);
    assert t[1..|t| - 1] == IntItems(xs);
    ReadItemsOfItems(xs);
  }

  /** `"\n".join(lines)` */
  function JoinLines(lines: seq<string>): (t: string)
    ensures |lines| == 1 ==> t == lines[0]
    ensures lines != [] ==> lines[0] <= t
    ensures lines != [] ==>
              var last := lines[|lines| - 1];
              |last| <= |t| && t[|t| - |last|..] == last
  {
    if lines == [] then []
    else if |lines| == 1 then lines[0]
    else lines[0] + "\n" + JoinLines(lines[1..])
  }

  /** Joining two blocks of lines joins their texts with one newline, so
      every line appears, in order, each on its own. */
  lemma {:induction false} JoinLinesAppend(a: seq<string>, b: seq<string>)
    requires a != [] && b != []
    ensures JoinLines(a + b) == JoinLines(a) + "\n" + JoinLines(b)
    decreases |a|
  {
    assert (a + b)[0] == a[0] && (a + b)[1..] == a[1..] + b;
    if |a| > 1 {
      JoinLinesAppend(a[1..], b);
      assert a[0] + "\n" + (JoinLines(a[1..]) + "\n" + JoinLines(b))
          == (a[0] + "\n" + JoinLines(a[1..])) + "\n" + JoinLines(b);
    }
  }

  function CodeLines(prefix: string, cf: string, cb: string): seq<string>
  {
    if cf != [] && cb != [] then [CodeLabel + prefix + cf + "-0" + cb + "\n"] else []
  }

  function SlabLine(slab: real, fixed1: real -> string): string
  {
    "▶ Slab 실길이: " + fixed1(slab) + Mm
  }

  function GuideLine(i: nat, g: real, fixed1: real -> string): string
  {
    "▶ " + NatText(i) + "번 지시길이: " + fixed1(g) + Mm
  }

  function GuideLines(guides: seq<real>, fixed1: real -> string): (ls: seq<string>)
    ensures |ls| == |guides|
  {
    seq(|guides|, i requires 0 <= i < |guides| => GuideLine(i + 1, guides[i], fixed1))
  }

  function LossLine(a: Allocation, loss: real, floatText: real -> string): string
  {
    "▶ 절단 손실: " + floatText(loss) + Mm + " × " + IntText(|a.guides| - 1) + " = "
      + floatText(a.totalLoss) + Mm
  }

  function RemainLine(a: Allocation, fixed1: real -> string): string
  {
    "▶ 전체 여유길이: " + fixed1(a.remain) + Mm + " → 각 +" + fixed1(a.addEach) + Mm + "\n"
  }

  function LengthLine(i: nat, r: real, fixed1: real -> string): string
  {
    "   " + NatText(i) + "번: " + fixed1(r) + Mm
  }

  function LengthLines(lengths: seq<real>, fixed1: real -> string): (ls: seq<string>)
    ensures |ls| == |lengths|
  {
    seq(|lengths|, i requires 0 <= i < |lengths| => LengthLine(i + 1, lengths[i], fixed1))
  }

  /** `[round_half_up(c) for c in centers]` */
  function RoundAll(xs: seq<real>): (r: seq<int>)
    ensures |r| == |xs|
    ensures forall i :: 0 <= i < |xs| ==> r[i] == RoundHalfUp(xs[i])
  {
    seq(|xs|, i requires 0 <= i < |xs| => RoundHalfUp(xs[i]))
  }

  function CentersLine(centers: seq<real>): string
  {
    "\n▶ 절단센터 위치(mm): " + IntListText(RoundAll(centers)) + "\n"
  }

  /** The lines of the report, in the order `calculate` appends them. */
  function ReportLines(slab: real, a: Allocation, centers: seq<real>, marks: seq<int>,
                       prefix: string, cf: string, cb: string, loss: real,
                       fixed1: real -> string, floatText: real -> string): (ls: seq<string>)
    ensures |ls| == (if cf != [] && cb != [] then 1 else 0) + |a.guides| + |a.lengths| + 7
    ensures ls[|ls| - 1] == Visual(marks)
  {
    CodeLines(prefix, cf, cb)
    + [SlabLine(slab, fixed1)]
    + GuideLines(a.guides, fixed1)
    + [LossLine(a, loss, floatText), RemainLine(a, fixed1), LengthsHeader]
    + LengthLines(a.lengths, fixed1)
    + [CentersLine(centers), VisualHeader, Visual(marks)]
  }

  /** The layout of the report: the steel-code line comes first exactly when
      both code fields are filled in, then the slab line; the centres line
      and the diagram under its header are the last three lines. */
  lemma ReportLayout(slab: real, a: Allocation, centers: seq<real>, marks: seq<int>,
                     prefix: string, cf: string, cb: string, loss: real,
                     fixed1: real -> string, floatText: real -> string)
    ensures var ls := ReportLines(slab, a, centers, marks, prefix, cf, cb, loss, fixed1, floatText);
            var k := if cf != [] && cb != [] then 1 else 0;
            |ls| == k + |a.guides| + |a.lengths| + 7
            && (k == 1 ==> ls[0] == CodeLabel + prefix + cf + "-0" + cb + "\n")
            && ls[k] == SlabLine(slab, fixed1)
            && ls[k + |a.guides| + 1] == LossLine(a, loss, floatText)
            && ls[k + |a.guides| + 2] == RemainLine(a, fixed1)
            && ls[|ls| - 3] == CentersLine(centers)
            && ls[|ls| - 2] == VisualHeader && ls[|ls| - 1] == Visual(marks)
  {
    var code := CodeLines(prefix, cf, cb);
    LinesLayout(code, SlabLine(slab, fixed1), GuideLines(a.guides, fixed1),
                LossLine(a, loss, floatText), RemainLine(a, fixed1), LengthsHeader,
                LengthLines(a.lengths, fixed1), CentersLine(centers), VisualHeader, Visual(marks));
  }

  /** The lines of the instructed lengths and then those of the segments,
      each block in input order (`GuideLines` and `LengthLines` number them
      from 1). */
  lemma ReportLinesInOrder(slab: real, a: Allocation, centers: seq<real>, marks: seq<int>,
                           prefix: string, cf: string, cb: string, loss: real,
                           fixed1: real -> string, floatText: real -> string)
    ensures var ls := ReportLines(slab, a, centers, marks, prefix, cf, cb, loss, fixed1, floatText);
            var k := if cf != [] && cb != [] then 1 else 0;
            var n, m := |a.guides|, |a.lengths|;
            |ls| == k + n + m + 7
            && ls[k + 1..k + 1 + n] == GuideLines(a.guides, fixed1)
            && ls[k + n + 3] == LengthsHeader
            && ls[k + n + 4..k + n + 4 + m] == LengthLines(a.lengths, fixed1)
  {
    var code := CodeLines(prefix, cf, cb);
    LinesLayout(code, SlabLine(slab, fixed1), GuideLines(a.guides, fixed1),
                LossLine(a, loss, floatText), RemainLine(a, fixed1), LengthsHeader,
                LengthLines(a.lengths, fixed1), CentersLine(centers), VisualHeader, Visual(marks));
  }

  /** Where each part of a concatenation of lines ends up. */
  lemma LinesLayout(code: seq<string>, first: string, guides: seq<string>,
                    x: string, y: string, z: string, lengths: seq<string>,
                    u: string, v: string, w: string)
    ensures var ls := code + [first] + guides + [x, y, z] + lengths + [u, v, w];
            var k, n, m := |code|, |guides|, |lengths|;
            |ls| == k + n + m + 7
            && (k > 0 ==> ls[0] == code[0])
            && ls[k] == first
            && ls[k + 1..k + 1 + n] == guides
            && ls[k + n + 1] == x && ls[k + n + 2] == y
            && ls[k + n + 3] == z
            && ls[k + n + 4..k + n + 4 + m] == lengths
            && ls[|ls| - 3] == u && ls[|ls| - 2] == v && ls[|ls| - 1] == w
  {
    var ls := code + [first] + guides + [x, y, z] + lengths + [u, v, w];
    var k, n := |code|, |guides|;
    assert ls[k + 1..k + 1 + n] == guides;
    assert ls[k + n + 4..k + n + 4 + |lengths|] == lengths;
  }

  /** `for i,g in enumerate(guides,1): lines.append(...)` */
  method AppendGuideLines(lines: seq<string>, guides: seq<real>, fixed1: real -> string)
    returns (out: seq<string>)
    ensures out == lines + GuideLines(guides, fixed1)
  {
    out := lines;
    var i := 0;
    while i < |guides|
      invariant 0 <= i <= |guides|
      invariant out == lines + GuideLines(guides[..i], fixed1)
    {
      assert GuideLines(guides[..i + 1], fixed1)
          == GuideLines(guides[..i], fixed1) + [GuideLine(i + 1, guides[i], fixed1)];
      out := out + ["▶ " + NatText(i + 1) + "번 지시길이: " + fixed1(guides[i]) + Mm];
      i := i + 1;
    }
    assert guides[..i] == guides;
  }

  /** `for i,r in enumerate(real,1): lines.append(...)` */
  method AppendLengthLines(lines: seq<string>, lengths: seq<real>, fixed1: real -> string)
    returns (out: seq<string>)
    ensures out == lines + LengthLines(lengths, fixed1)
  {
    out := lines;
    var i := 0;
    while i < |lengths|
      invariant 0 <= i <= |lengths|
      invariant out == lines + LengthLines(lengths[..i], fixed1)
    {
      assert LengthLines(lengths[..i + 1], fixed1)
          == LengthLines(lengths[..i], fixed1) + [LengthLine(i + 1, lengths[i], fixed1)];
      out := out + ["   " + NatText(i + 1) + "번: " + fixed1(lengths[i]) + Mm];
      i := i + 1;
    }
    assert lengths[..i] == lengths;
  }

  /** The report as `calculate` builds it, appending to `lines` one entry
      at a time. */
  method BuildReport(slab: real, a: Allocation, centers: seq<real>,
                     prefix: string, cf: string, cb: string, loss: real,
                     fixed1: real -> string, floatText: real -> string)
    returns (lines: seq<string>)
    ensures lines == ReportLines(slab, a, centers, Marks(a.lengths, loss), prefix, cf, cb, loss, fixed1, floatText)
  {
    lines := [];
    if cf != [] && cb != [] {
      lines := lines + [CodeLabel + prefix + cf + "-0" + cb + "\n"];
    }
    assert lines == CodeLines(prefix, cf, cb);
    lines := lines + [SlabLine(slab, fixed1)];
    lines := AppendGuideLines(lines, a.guides, fixed1);
    lines := lines + [LossLine(a, loss, floatText), RemainLine(a, fixed1), LengthsHeader];
    lines := AppendLengthLines(lines, a.lengths, fixed1);
    ghost var body := lines;
    lines := lines + [CentersLine(centers)];
    var visual := DrawVisual(a.lengths, loss);
    lines := lines + [VisualHeader, visual];
    assert lines == body + [CentersLine(centers), VisualHeader, visual];
  }

  /** The label text for each outcome of the calculation. */
  function ResultText(c: Calculation, prefix: string, cf: string, cb: string, loss: real,
                      fixed1: real -> string, floatText: real -> string): (t: string)
    ensures c.Ok? ==>
              var v := Visual(c.marks);
              |v| <= |t| && t[|t| - |v|..] == v
    ensures (|t| > 0 && t[|t| - 1] == 'T') <==> c.Ok?
    ensures c.SlabError? ==> t == SlabErrorText
    ensures c.GuideError? ==> t == GuideErrorText
  {
    match c
    case SlabError => SlabErrorText
    case GuideError => GuideErrorText
    case Ok(slab, a, centers, marks) =>
      JoinLines(ReportLines(slab, a, centers, marks, prefix, cf, cb, loss, fixed1, floatText))
  }

  /** The body of `calculate` on the field texts it reads: the warning or the
      report it puts in the result label. */
  method CalculateText(totalText: string, p1Text: string, p2Text: string, p3Text: string,
                       prefix: string, cf: string, cb: string,
                       fixed1: real -> string, floatText: real -> string)
    returns (text: string)
    ensures text == ResultText(Evaluate(totalText, p1Text, p2Text, p3Text, CutLoss),
                               prefix, cf, cb, CutLoss, fixed1, floatText)
  {
    var slab := NumOrNone(Some(totalText));
    var p1, p2, p3 := NumOrNone(Some(p1Text)), NumOrNone(Some(p2Text)), NumOrNone(Some(p3Text));
    ghost var c := Compute(slab, [p1, p2, p3], CutLoss);
    assert Evaluate(totalText, p1Text, p2Text, p3Text, CutLoss) == c;
    if slab.None? || slab.value <= 0.0 {
      assert c == SlabError;
      return SlabErrorText;
    }
    var guides := KeepGuides([p1, p2, p3]);
    if |guides| < 2 {
      assert c == GuideError;
      return GuideErrorText;
    }
    var loss := CutLoss;
    var a := Allocate(slab.value, guides, loss);
    var centers := ComputeCenters(a.lengths, loss);
    assert c == Ok(slab.value, a, centers, Marks(a.lengths, loss));
    var lines := BuildReport(slab.value, a, centers, prefix, cf, cb, loss, fixed1, floatText);
    text := JoinLines(lines);
  }

  /** The application state `calculate` works on: the text of every input
      field and the result label. */
  class SlabApp {
    const prefix: string
    var totalText: string
    var p1Text: string
    var p2Text: string
    var p3Text: string
    var codeFront: string
    var codeBack: string
    var resultText: string

    constructor ()
      ensures prefix == "SG94" && resultText == []
      ensures totalText == p1Text == p2Text == p3Text == codeFront == codeBack == []
    {
      prefix := "SG94";
      totalText, p1Text, p2Text, p3Text := [], [], [], [];
      codeFront, codeBack, resultText := [], [], [];
    }

    /** `SlabApp.calculate`: sets the result label from the input fields and
        changes nothing else. */
    method Calculate(fixed1: real -> string, floatText: real -> string)
      modifies this`resultText
      ensures resultText == ResultText(Evaluate(old(totalText), old(p1Text), old(p2Text), old(p3Text), CutLoss),
                                       prefix, Strip(old(codeFront)), Strip(old(codeBack)), CutLoss,
                                       fixed1, floatText)
    {
      var cf, cb := Strip(codeFront), Strip(codeBack);
      var text := CalculateText(totalText, p1Text, p2Text, p3Text, prefix, cf, cb, fixed1, floatText);
      resultText := text;
    }
  }
}
