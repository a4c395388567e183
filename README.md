# Slab cutting calculator — a verified model

The application is a small form for a steel-plant operator. The operator
enters a measured slab length and up to three instructed (target) lengths.
The application then splits the slab into that many segments. Every saw cut
loses a fixed kerf of 15 mm. What is left over, or missing, once the
instructed lengths and the kerf are taken off is shared equally among the
segments. The result label then shows:

- the real cut length of every segment;
- the rounded position of every cut centre;
- a marking diagram `H-1번(m1)--2번(m2)-…T` running from the head to the tail of the slab;
- optionally, a steel-code line built from two code fields.

The numeric fields filter what is typed or pasted into them.

This project models that logic in Dafny and proves properties of it:

- `numbers.dfy` (module `Numbers`):
  - the lenient field parser `_num_or_none`;
  - the rounding `round_half_up`;
  - the decimal rendering of integers used in the report.
- `digit_input.dfy` (module `DigitInput`):
  - the input filter `DigitInput.insert_text`;
  - a corrected variant of it (see Findings).
- `slab.dfy` (module `Slab`):
  - the validation stage of `SlabApp.calculate`;
  - the allocation stage;
  - the cut-centre loop, as a method proved against a closed form;
  - the marks.
- `report.dfy` (module `Report`):
  - the report lines;
  - the diagram loop;
  - a reader that recovers the marks from a diagram;
  - the `SlabApp` class, whose `Calculate` method sets the result label from the field texts.
- `scenarios.dfy` (module `Scenarios`): worked examples, from field text to derived values.

Lengths are exact `real`s.

Two behaviours of the program are worth stating up front:

- `round_half_up` is `int(x + 0.5)`. Python's `int` truncates toward zero. For `x >= -0.5` this is `floor(x + 0.5)`; below -0.5 it is one more than `floor(x + 0.5)` whenever `x + 0.5` is not an integer. For example, -1.0 gives 0 where the floor gives -1. `Numbers.RoundHalfUp` models the truncation, `Numbers.RoundHalfUpExamples` exhibits the difference, and `Scenarios.NegativeMarkTruncates` reaches it from field values.
- The program has no check for a slab shorter than its instructed lengths plus kerf. `Slab.Allocate` allocates a negative remainder like a positive one, so the segments come out shorter than instructed. `Scenarios.ShortSlabStillAllocated` shows this.

## Model

| member | source | states |
|---|---|---|
| Numbers.Strip | main.py:20 | the stripped text is the infix that starts after the leading run of whitespace and stops before the trailing run: everything before and after it is whitespace, and it neither starts nor ends with whitespace; it is empty only when the text is all whitespace; text without surrounding whitespace is unchanged |
| Numbers.ParseFloat | main.py:23 | a parse succeeds only on non-empty text; a negative value needs a leading minus; text without a sign is read as an unsigned decimal |
| Numbers.DecimalValue | main.py:23 | text made of whole digits, a dot and fraction digits (at least one digit in all) parses to the whole part plus the fraction digits over ten to the power of their count |
| Numbers.NumOrNone | main.py:18-25 | a missing or all-whitespace field gives no value; a value comes only from stripped, non-empty text that parses; a field whose stripped text parses gives exactly the parsed value |
| Numbers.ParseDigitsAndDots | main.py:18-25 | on text made of digits and dots, the only text a numeric field can hold, parsing succeeds exactly when there is at most one dot and at least one digit |
| Numbers.NumOrNoneIntText | main.py:18-25 | a field holding the decimal text of any integer reads back as that integer |
| Numbers.RoundHalfUp | main.py:27-28 | `int(x + 0.5)`: for x ≥ -0.5 the result r satisfies r ≤ x + 0.5 < r + 1, i.e. the floor; below that, r - 1 < x + 0.5 ≤ r, i.e. truncation toward zero |
| Numbers.RoundHalfUpAgreesWithFloor | main.py:27-28 | equals `floor(x + 0.5)` for x ≥ -0.5, and is one more than it below -0.5 whenever x + 0.5 is not an integer |
| Numbers.RoundHalfUpExamples | main.py:27-28 | 2.5 → 3, 2.4 → 2, 2.0 → 2, 4015.0 → 4015, 4015.49 → 4015, and -1.0 → 0 although floor(-0.5) is -1 |
| Numbers.ParseIntOfIntText | main.py:237-240 | the decimal rendering of an integer, as printed in the centres list and the diagram, reads back as that integer |
| DigitInput.KeepAllowed | main.py:70-74 | the filtered text is a subsequence of the inserted text, no longer than it, and holds only digits (and dots when dots are allowed) |
| DigitInput.KeepAllowedAppend | main.py:70-74 | filtering a concatenation filters each part; with `KeepAllowedSingle` this determines the filter completely: each character is kept or dropped on its own, and order is kept |
| DigitInput.RemoveDots | main.py:72 | the result holds no dot, is no longer than the text and takes every character from it; with `RemoveDotsAppend` and `RemoveDotsSubsequence` it deletes the dots and keeps everything else in order |
| DigitInput.RemoveDotsAppend | main.py:72 | removing dots from a concatenation removes them from each part |
| DigitInput.RemoveDotsSubsequence | main.py:72 | removing dots only deletes characters: the result is a subsequence of the text |
| DigitInput.RemoveDotsOfKept | main.py:70-72 | removing the dots from the decimal filter's output gives the integer filter's output |
| DigitInput.Filter | main.py:69-74 | the filter is a single character filter: the digits of the inserted text, plus its dots exactly when the field is decimal and not both the field and the inserted text hold a dot |
| DigitInput.Truncate | main.py:76-80 | nothing is inserted exactly when there is no room left; otherwise the insertion is the longest prefix of the filtered text that fits in the room |
| DigitInput.InsertText | main.py:68-81 | nothing is inserted exactly when the field is already at its length budget; otherwise the insertion keeps the field within budget, is a subsequence of the pasted text, holds only allowed characters, and holds no dot when the field already has one; it is the longest prefix of the filtered text that fits |
| DigitInput.InsertKeepsField | main.py:68-81 | wherever the cursor is, a field holding only allowed characters and within its budget still does so after an insertion |
| DigitInput.TwoDotsGetIn | main.py:69-72 | pasting "1..5" into an empty five-character decimal field inserts "1..5", which does not parse |
| DigitInput.KeepFirstDot | main.py:69-72 | the corrected dot rule keeps at most one dot; it is a subsequence of its input that loses no non-dot character; it keeps the input unchanged up to and including the first dot; it changes nothing when there is at most one dot |
| DigitInput.FilterSingleDot | main.py:69-74 | the corrected filter keeps every digit of the inserted text and only allowed characters, never lets the field's dots and the inserted dots exceed one, and equals the original filter whenever the field is not decimal, already holds a dot, or the inserted text holds at most one dot; into a decimal field with no dot yet it brings exactly one dot whenever the inserted text holds one |
| DigitInput.InsertTextSingleDot | main.py:68-81 | the corrected insertion equals the original one whenever a second dot cannot come in; it inserts nothing exactly when there is no room, and otherwise the longest prefix of the corrected filter's output that fits; the field never holds two dots |
| DigitInput.SingleDotKeepsOneDot | main.py:68-81 | with the corrected filter, a field with at most one dot keeps at most one dot wherever the insertion happens |
| Slab.KeepGuides | main.py:216 | the guide list is no longer than the fields, holds no zero, and contains every present non-zero field value |
| Slab.KeepGuidesAppend | main.py:216 | the guide filter keeps input order and decides each field on its own (with `KeepGuidesSingle`: a field is kept exactly when it is present and non-zero) |
| Slab.KeepGuidesKeepsNegatives | main.py:216 | negative instructed lengths are kept; only missing fields and zeros are dropped |
| Slab.SumAppend | main.py:222 | Python's `sum` of two runs of lengths laid end to end is the sum of their sums |
| Slab.SumNonNegative | main.py:222 | lengths that are not negative have a sum that is not negative (used to place the first cut inside the slab) |
| Slab.AddEach | main.py:224 | one real length per guide, each exceeding its guide by the same share |
| Slab.SumAddEach | main.py:224 | adding the same share to every guide adds n times that share to the total |
| Slab.Allocate | main.py:220-224 | total kerf is loss·(n-1); the share times n is the remainder; every real length exceeds its guide by the same share, in guide order; the real lengths plus the kerf add up exactly to the slab length; a negative remainder makes every segment shorter than instructed |
| Slab.ComputeCenters | main.py:225-227 | the running-accumulator loop computes the closed form: cut k lies at the sum of the first k+1 real lengths plus k kerfs plus half a kerf, with n-1 cuts in all |
| Slab.LastCutReachesSlabEnd | main.py:220-227 | the last cut centre plus half a kerf plus the last real length is exactly the slab length, whatever the sign of the remainder |
| Slab.CentersIncrease | main.py:225-227 | with a positive kerf and positive real lengths, the cut centres strictly increase |
| Slab.CentersInsideSlab | main.py:220-227 | with a positive kerf and positive real lengths, every cut centre lies strictly inside the slab, between 0 and the slab length |
| Slab.Marks | main.py:238-240 | one mark per segment, in order: `round_half_up` of its real length plus half a kerf, which is within 0.5 of that value whenever the value is at least -0.5 |
| Slab.Compute | main.py:211-227 | a slab that is missing or not positive gives the slab warning; otherwise fewer than two usable guides give the guide warning; otherwise the result holds the allocation of the slab over the kept guides (`Slab.Allocate`), the centres of its real lengths (`Slab.Centers`) and their marks (`Slab.Marks`); it keeps the guides in order, conserves the slab length and ends exactly at the slab end |
| Slab.Evaluate | main.py:210-227 | a blank slab field always gives the slab warning; the slab warning is given exactly when the stripped slab text does not parse to a positive number; a calculation uses that parsed value; past the slab check, the guide warning is given exactly when fewer than two of the three parsed guide fields are present and non-zero, and a calculation uses those fields' values in order; a calculation is the allocation of the slab over those guides, with its centres and marks |
| Report.Chunk | main.py:240 | a segment's chunk opens and closes with `-` and carries the segment's number right after the opening dash |
| Report.ReadOneChunk | main.py:240 | reading a chunk off the front of a text recovers its mark and moves on to the next number |
| Report.ChunksAppend | main.py:238-240 | appending a segment appends its chunk `-{i}번({mark})-` numbered after the previous ones |
| Report.Visual | main.py:238-241 | the diagram starts with `H` and ends with `T` |
| Report.DrawVisual | main.py:238-241 | the diagram loop draws exactly `H`, then one chunk per segment in order with that segment's mark, then `T` |
| Report.ReadVisualOfVisual | main.py:238-241 | the marks can be read back off the diagram, in order: the diagram carries exactly one chunk per segment and nothing else |
| Report.IntListText | main.py:237 | Python's text of an integer list is bracketed, is `[]` exactly for the empty list, and starts with the first integer right after the bracket |
| Report.ReadOneItem | main.py:237 | reading one item off the front of `str(list)`'s item text recovers that integer and skips exactly its `", "` separator |
| Report.ReadIntListOfIntList | main.py:237 | Python's text of any integer list reads back as exactly that list: every integer, in order, and nothing else |
| Report.RoundAll | main.py:237 | the printed centres are each centre rounded half up, one per centre, in order |
| Report.ReportLines | main.py:229-242 | the report has one line per guide and per segment, seven fixed lines, and the code line when both code fields are filled in; its last line is the diagram |
| Report.JoinLines | main.py:243 | joining lines with newlines starts with the first line and ends with the last; a single line is left as it is |
| Report.JoinLinesAppend | main.py:243 | joining two non-empty runs of lines is joining each and putting one newline between them, so the joined text holds every line, in order, separated by single newlines |
| Report.ResultText | main.py:213-243 | the slab warning and the guide warning are shown word for word; a successful calculation's label ends with its diagram; the label ends with the tail mark `T` exactly when the calculation succeeded, so neither warning can be mistaken for a report |
| Report.ReportLayout | main.py:229-242 | the steel-code line `prefix + cf + "-0" + cb` comes first exactly when both code fields are non-empty; the slab line follows; the kerf line and the remainder line come right after the instructed-length lines; the centres line, the diagram header and the diagram are the last three lines |
| Report.ReportLinesInOrder | main.py:231-236 | the instructed-length lines and then the segment lines appear as contiguous blocks, each in input order |
| Report.LinesLayout | main.py:229-242 | where each appended group of lines ends up in the list, single lines and blocks alike |
| Report.AppendGuideLines | main.py:232 | the loop appends one numbered line per guide, in order |
| Report.AppendLengthLines | main.py:236 | the loop appends one numbered line per real length, in order |
| Report.BuildReport | main.py:229-242 | the lines built step by step are exactly the report's lines, with the diagram of the segments' marks last |
| Report.CalculateText | main.py:210-243 | the text put in the result label is the slab warning, the guide warning, or the report lines joined by newlines, according to the calculation of the field texts |
| Report.SlabApp.constructor | main.py:84 | the code prefix is "SG94" and every field starts empty |
| Report.SlabApp.Calculate | main.py:210-243 | only the result label changes; it becomes the label text of the calculation of the field texts, with the code fields stripped |
| Scenarios.TwoGuideAllocation | main.py:220-240 | an 8030 mm slab with two 4000 mm guides: 15 mm kerf, 15 mm remainder, +7.5 mm each, real lengths 4007.5 and 4007.5, one cut centre at 4015, marks 4015 and 4015 |
| Scenarios.ReadsDecimal | main.py:18-25 | the field text " 4007.5" reads as 4007.5 |
| Scenarios.TwoGuideFields | main.py:210-216 | the field texts "8030", "4000", "4000" and a blank one read as those values |
| Scenarios.TwoGuideScenario | main.py:210-227 | the whole calculation of that input |
| Scenarios.TwoGuideDiagram | main.py:238-241 | its diagram is `H-1번(4015)--2번(4015)-T` |
| Scenarios.ThreeGuideScenario | main.py:210-227 | a 12100 mm slab with three 4000 mm guides: 30 mm kerf, 70 mm remainder, a third of it added to each segment, marks 4031 |
| Scenarios.OneUsableGuide | main.py:216-219 | one usable guide, the others zero and blank, gives the guide warning |
| Scenarios.NoSlabLength | main.py:211-215 | a blank or zero slab field gives the slab warning whatever the guides are |
| Scenarios.ShortSlabFields | main.py:210-216 | the field texts "100", "4000", "4000" and a blank one read as those values |
| Scenarios.ShortSlabStillAllocated | main.py:220-224 | a 100 mm slab with two 4000 mm guides is still allocated: remainder -7915 mm, real lengths 42.5 mm |
| Scenarios.NegativeMarkTruncates | main.py:220-240 | a 100 mm slab with guides 9999 and 1 gives real lengths 5041.5 and -4956.5 and marks 5049 and -4948; the second is truncated toward zero, where the floor would give -4949 |

## Left out

- The Kivy user interface is not modelled: buttons, layouts, canvas drawing, focus moves between the code fields, copying between fields, the settings dialog and the application loop. It is widget plumbing around the calculation.
- Numbers.ParseFloat: the numeric fields hold only digits and dots. The model parses those, and also accepts an optional leading sign. Exponents, `inf`, `nan`, digit-group underscores and non-ASCII digits are not accepted, although `float()` accepts them.
- Numbers.Strip: the whitespace it removes is the fixed list in `Numbers.IsSpace`: the ASCII spaces, the separators U+001C–U+001F and the Unicode space characters that Python's `str.isspace` accepts. A Unicode version that adds a space character is not followed.
- `str.isdigit()` is modelled as the ASCII digits `0`–`9`; other Unicode digits are not.
- Floating-point rounding is not modelled. Lengths are exact reals, so the conservation and end-point identities hold exactly, where the program's binary floats only approximate them.
- The text of a number printed with one decimal and thousands separators (`:,.1f`), and the text of `str(float)`, are not modelled. Both are parameters of the report functions, so the report is proved for any such rendering. Integers (line numbers, marks, centres, the cut count) are rendered exactly.
- The kerf is the program's fixed 15 mm (`Slab.CutLoss`). The calculation functions take it as a parameter; the settings dialog that might change it does nothing in the program.
- The toolkit's own insertion step is not modelled: the call into the base text field, cursor movement, selection replacement and undo. `DigitInput.InsertText` returns the string that would be handed on. `DigitInput.InsertAt` places it at a cursor only to state the field invariants.
- The per-field length budgets and decimal flags chosen when the form is built are not tied to the fields of `Report.SlabApp`. The filter is proved for every budget and flag.
- Report.SlabApp.Calculate: its contract is stated over the field texts at the time of the call. The label is assigned once at the end rather than in each branch; the observable result is the same.

## Findings

| source | as written | input that shows it | evidently intended | confidence | as-written member | corrected member |
|---|---|---|---|---|---|---|
| main.py:69-72 | dots are dropped from the inserted text only when the field already holds a dot, so one insertion can bring in several dots | field text "", inserted text "1..5", budget 5, decimal field: "1..5" is inserted and then does not parse as a number | a decimal field never holds more than one dot | medium, not executed | DigitInput.TwoDotsGetIn | DigitInput.SingleDotKeepsOneDot |
