/** Worked examples of the calculation, from the text of the input fields
    to the derived values and the marking diagram. */
module Scenarios {
  import opened Numbers
  import opened Slab
  import opened Report

  lemma FieldValue(text: string, n: nat)
    requires text == NatText(n)
    ensures NumOrNone(Some(text)) == Some(n as real)
  {
    NumOrNoneIntText(n);
  }

  lemma Reads8030()
    ensures NumOrNone(Some("8030")) == Some(8030.0)
  {
    assert NatText(8030) == "8030";
    FieldValue("8030", 8030);
  }

  lemma Reads12100()
    ensures NumOrNone(Some("12100")) == Some(12100.0)
  {
    assert NatText(12100) == "12100";
    FieldValue("12100", 12100);
  }

  lemma Reads4000()
    ensures NumOrNone(Some("4000")) == Some(4000.0)
  {
    assert NatText(4000) == "4000";
    FieldValue("4000", 4000);
  }

  lemma Reads100()
    ensures NumOrNone(Some("100")) == Some(100.0)
  {
    assert NatText(100) == "100";
    FieldValue("100", 100);
  }

  lemma Reads0()
    ensures NumOrNone(Some("0")) == Some(0.0)
  {
    assert NatText(0) == "0";
    FieldValue("0", 0);
  }

  lemma DecimalOf4007Point5()
    ensures DecimalOf("4007", "5") == 4007.5
  {
    assert NatText(4007) == "4007" && NatText(5) == "5";
    NatTextValue(4007);
    NatTextValue(5);
    assert Pow10(|"5"|) == 10;
  }

  lemma Parses4007Point5()
    ensures ParseFloat("4007.5") == Some(4007.5)
  {
    DecimalValue("4007", "5");
    assert "4007" + "." + "5" == "4007.5";
    DecimalOf4007Point5();
  }

  lemma StripsLeadingSpace()
    ensures Strip(" 4007.5") == "4007.5"
  {
    var t := "4007.5";
    assert t[0] == '4' && t[|t| - 1] == '5' && !IsSpace('4') && !IsSpace('5');
    assert IsSpace(" "[0]);
    StripSurrounded(" ", t, "");
    assert " " + t + "" == " 4007.5";
  }

  /** A decimal text, with a stray leading space, reads as its value. */
  lemma ReadsDecimal()
    ensures NumOrNone(Some(" 4007.5")) == Some(4007.5)
  {
    Parses4007Point5();
    StripsLeadingSpace();
  }

  lemma BlankField()
    ensures NumOrNone(Some("")) == None
  {
  }

  lemma {:induction false} KeepThree(p1: Option<real>, p2: Option<real>, p3: Option<real>)
    ensures KeepGuides([p1, p2, p3]) == KeepGuides([p1]) + KeepGuides([p2]) + KeepGuides([p3])
  {
    KeepGuidesAppend([p1], [p2, p3]);
    KeepGuidesAppend([p2], [p3]);
    assert [p1] + [p2, p3] == [p1, p2, p3];
    assert [p2] + [p3] == [p2, p3];
  }

  /** The guide list of three fields, slot by slot. */
  lemma GuidesOfThree(v1: Option<real>, v2: Option<real>, v3: Option<real>)
    ensures KeepGuides([v1, v2, v3])
         == (if Truthy(v1) then [v1.value] else []) + (if Truthy(v2) then [v2.value] else [])
            + (if Truthy(v3) then [v3.value] else [])
  {
    KeepThree(v1, v2, v3);
    KeepGuidesSingle(v1);
    KeepGuidesSingle(v2);
    KeepGuidesSingle(v3);
  }

  /** The calculation once the guide list is known. */
  lemma ComputeWith(slab: real, fields: seq<Option<real>>, guides: seq<real>, loss: real)
    requires slab > 0.0 && KeepGuides(fields) == guides && |guides| >= 2
    ensures var a := Allocate(slab, guides, loss);
            Compute(Some(slab), fields, loss) == Ok(slab, a, Centers(a.lengths, loss), Marks(a.lengths, loss))
  {
  }

  lemma SumOfTwo(x: real, y: real)
    ensures Sum([x, y]) == x + y
  {
    var s := [x, y];
    assert s[..|s| - 1] == [x];
    assert [x][..0] == [];
    assert Sum([x]) == x;
  }

  lemma SumOfThree(x: real, y: real, z: real)
    ensures Sum([x, y, z]) == x + y + z
  {
    assert [x, y, z][..2] == [x, y];
    SumOfTwo(x, y);
  }

  lemma AllocateTwo(slab: real, x: real, y: real, loss: real)
    ensures var e := (slab - (x + y + loss)) / 2.0;
            Allocate(slab, [x, y], loss)
              == Allocation([x, y], loss, slab - (x + y + loss), e, [x + e, y + e])
  {
    SumOfTwo(x, y);
    var e := (slab - (x + y + loss)) / 2.0;
    var a := Allocate(slab, [x, y], loss);
    assert a.lengths == [x + e, y + e];
  }

  lemma AllocateThree(slab: real, x: real, y: real, z: real, loss: real)
    ensures var e := (slab - (x + y + z + 2.0 * loss)) / 3.0;
            Allocate(slab, [x, y, z], loss)
              == Allocation([x, y, z], 2.0 * loss, slab - (x + y + z + 2.0 * loss), e, [x + e, y + e, z + e])
  {
    SumOfThree(x, y, z);
    var e := (slab - (x + y + z + 2.0 * loss)) / 3.0;
    var a := Allocate(slab, [x, y, z], loss);
    assert a.lengths == [x + e, y + e, z + e];
  }

  lemma CentersOfTwo(x: real, y: real, loss: real)
    ensures Centers([x, y], loss) == [x + loss / 2.0]
  {
    var c := Centers([x, y], loss);
    assert [x, y][..1] == [x] && [x][..0] == [];
    assert Sum([x]) == x;
    assert c[0] == x + loss / 2.0;
  }

  lemma CentersOfThree(x: real, y: real, z: real, loss: real)
    ensures Centers([x, y, z], loss) == [x + loss / 2.0, x + y + loss + loss / 2.0]
  {
    assert [x, y, z][..1] == [x] && [x][..0] == [];
    assert [x, y, z][..2] == [x, y];
    SumOfTwo(x, y);
  }

  lemma MarksOfTwo(x: real, y: real, loss: real)
    ensures Marks([x, y], loss) == [RoundHalfUp(x + loss / 2.0), RoundHalfUp(y + loss / 2.0)]
  {
  }

  lemma MarksOfThree(x: real, y: real, z: real, loss: real)
    ensures Marks([x, y, z], loss)
         == [RoundHalfUp(x + loss / 2.0), RoundHalfUp(y + loss / 2.0), RoundHalfUp(z + loss / 2.0)]
  {
  }

  lemma TwoGuideAllocation()
    ensures var a := Allocate(8030.0, [4000.0, 4000.0], CutLoss);
            a == Allocation([4000.0, 4000.0], 15.0, 15.0, 7.5, [4007.5, 4007.5])
            && Centers(a.lengths, CutLoss) == [4015.0]
            && Marks(a.lengths, CutLoss) == [4015, 4015]
  {
    AllocateTwo(8030.0, 4000.0, 4000.0, CutLoss);
    CentersOfTwo(4007.5, 4007.5, CutLoss);
    MarksOfTwo(4007.5, 4007.5, CutLoss);
    assert RoundHalfUp(4015.0) == 4015;
  }

  /** The text fields "8030", "4000", "4000" and a blank one read as these values. */
  lemma TwoGuideFields()
    ensures Evaluate("8030", "4000", "4000", "", CutLoss)
         == Compute(Some(8030.0), [Some(4000.0), Some(4000.0), None], CutLoss)
  {
    Reads8030();
    Reads4000();
    BlankField();
  }

  /** Two instructed lengths of 4000 mm in an 8030 mm slab: 15 mm of kerf,
      15 mm to spare, 7.5 mm added to each segment and one cut centred at
      4015 mm. */
  lemma TwoGuideScenario()
    ensures Compute(Some(8030.0), [Some(4000.0), Some(4000.0), None], CutLoss)
         == Ok(8030.0, Allocation([4000.0, 4000.0], 15.0, 15.0, 7.5, [4007.5, 4007.5]),
               [4015.0], [4015, 4015])
  {
    GuidesOfThree(Some(4000.0), Some(4000.0), None);
    ComputeWith(8030.0, [Some(4000.0), Some(4000.0), None], [4000.0, 4000.0], CutLoss);
    TwoGuideAllocation();
  }

  lemma Text4015()
    ensures IntText(4015) == "4015"
  {
    assert NatText(4015) == "4015";
  }

  lemma FirstChunk()
    ensures Chunk(1, 4015) == "-1번(4015)-"
  {
    Text4015();
    assert NatText(1) == "1";
  }

  lemma SecondChunk()
    ensures Chunk(2, 4015) == "-2번(4015)-"
  {
    Text4015();
    assert NatText(2) == "2";
  }

  /** The diagram of that scenario. */
  lemma TwoGuideDiagram()
    ensures Visual([4015, 4015]) == "H" + "-1번(4015)-" + "-2번(4015)-" + "T"
  {
    FirstChunk();
    SecondChunk();
    assert [4015, 4015][1..] == [4015] && [4015][1..] == [];
    assert Chunks([4015], 2) == Chunk(2, 4015);
  }

  lemma ThreeGuideAllocation()
    ensures var r := 4000.0 + 70.0 / 3.0;
            var a := Allocate(12100.0, [4000.0, 4000.0, 4000.0], CutLoss);
            a == Allocation([4000.0, 4000.0, 4000.0], 30.0, 70.0, 70.0 / 3.0, [r, r, r])
            && Centers(a.lengths, CutLoss) == [r + 7.5, 2.0 * r + 22.5]
            && Marks(a.lengths, CutLoss) == [4031, 4031, 4031]
  {
    var r := 4000.0 + 70.0 / 3.0;
    AllocateThree(12100.0, 4000.0, 4000.0, 4000.0, CutLoss);
    CentersOfThree(r, r, r, CutLoss);
    MarksOfThree(r, r, r, CutLoss);
    assert RoundHalfUp(r + 7.5) == 4031;
  }

  /** The text fields "12100", "4000", "4000" and "4000" read as these values. */
  lemma ThreeGuideFields()
    ensures Evaluate("12100", "4000", "4000", "4000", CutLoss)
         == Compute(Some(12100.0), [Some(4000.0), Some(4000.0), Some(4000.0)], CutLoss)
  {
    Reads12100();
    Reads4000();
  }

  /** Three instructed lengths of 4000 mm in a 12100 mm slab: 30 mm of kerf,
      70 mm to spare, a third of it added to each segment. */
  lemma ThreeGuideScenario()
    ensures var r := 4000.0 + 70.0 / 3.0;
            Compute(Some(12100.0), [Some(4000.0), Some(4000.0), Some(4000.0)], CutLoss)
              == Ok(12100.0, Allocation([4000.0, 4000.0, 4000.0], 30.0, 70.0, 70.0 / 3.0, [r, r, r]),
                    [r + 7.5, 2.0 * r + 22.5], [4031, 4031, 4031])
  {
    GuidesOfThree(Some(4000.0), Some(4000.0), Some(4000.0));
    ComputeWith(12100.0, [Some(4000.0), Some(4000.0), Some(4000.0)], [4000.0, 4000.0, 4000.0], CutLoss);
    ThreeGuideAllocation();
  }

  /** One usable instructed length (the others are zero and blank) is not
      enough: the guide warning, and no allocation. */
  lemma OneUsableGuide()
    ensures Evaluate("8030", "4000", "0", "", CutLoss) == GuideError
  {
    OneUsableGuideFields();
    GuidesOfThree(Some(4000.0), Some(0.0), None);
  }

  lemma OneUsableGuideFields()
    ensures Evaluate("8030", "4000", "0", "", CutLoss)
         == Compute(Some(8030.0), [Some(4000.0), Some(0.0), None], CutLoss)
  {
    Reads8030();
    Reads4000();
    Reads0();
    BlankField();
  }

  /** A blank or zero slab length gives the slab warning whatever the
      instructed lengths are. */
  lemma NoSlabLength(p1: string, p2: string, p3: string)
    ensures Evaluate("", p1, p2, p3, CutLoss) == SlabError
    ensures Evaluate("0", p1, p2, p3, CutLoss) == SlabError
  {
    BlankField();
    Reads0();
  }

  /** The text fields "100", "4000", "4000" and a blank one read as these values. */
  lemma ShortSlabFields()
    ensures Evaluate("100", "4000", "4000", "", CutLoss)
         == Compute(Some(100.0), [Some(4000.0), Some(4000.0), None], CutLoss)
  {
    Reads100();
    Reads4000();
    BlankField();
  }

  /** A slab too short for its instructed lengths is not rejected: the
      deficit is spread over the segments like a surplus would be. */
  lemma ShortSlabStillAllocated()
    ensures var c := Compute(Some(100.0), [Some(4000.0), Some(4000.0), None], CutLoss);
            c.Ok? && c.alloc.remain == -7915.0 && c.alloc.lengths == [42.5, 42.5]
  {
    GuidesOfThree(Some(4000.0), Some(4000.0), None);
    ComputeWith(100.0, [Some(4000.0), Some(4000.0), None], [4000.0, 4000.0], CutLoss);
    AllocateTwo(100.0, 4000.0, 4000.0, CutLoss);
  }

  /** A deficit larger than a segment drives its real length, and its mark,
      below zero; the mark is then `int()` of a negative number, which is
      truncated toward zero: -4956.5 + 7.5 + 0.5 = -4948.5 gives -4948, not
      the floor -4949. */
  lemma NegativeMarkTruncates()
    ensures var c := Compute(Some(100.0), [Some(9999.0), Some(1.0), None], CutLoss);
            c.Ok? && c.alloc.remain == -9915.0 && c.alloc.lengths == [5041.5, -4956.5]
            && c.marks == [5049, -4948] && (-4956.5 + 7.5 + 0.5).Floor == -4949
  {
    GuidesOfThree(Some(9999.0), Some(1.0), None);
    ComputeWith(100.0, [Some(9999.0), Some(1.0), None], [9999.0, 1.0], CutLoss);
    AllocateTwo(100.0, 9999.0, 1.0, CutLoss);
    MarksOfTwo(5041.5, -4956.5, CutLoss);
    assert RoundHalfUp(5049.0) == 5049 && RoundHalfUp(-4949.0) == -4948;
  }
}
