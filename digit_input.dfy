/** The input filter of the calculator's numeric text fields
    (`DigitInput.insert_text`): what part of a typed or pasted string is
    handed on to the text field, given the field's current text, its length
    budget `max_len` and whether it takes a decimal point. Cursor placement
    and the insertion itself belong to the widget toolkit; the model keeps
    only the string that is handed on. */
module DigitInput {
  import opened Numbers

  predicate Allowed(c: char, allowDot: bool) { IsDigit(c) || (allowDot && c == '.') }

  /** `a` can be obtained from `b` by deleting characters (greedy matching). */
  predicate IsSubsequence(a: string, b: string)
    decreases |b|
  {
    if a == [] then true
    else if b == [] then false
    else if a[0] == b[0] then IsSubsequence(a[1..], b[1..])
    else IsSubsequence(a, b[1..])
  }

  lemma {:induction false} PrefixOfSubsequence(a: string, b: string, n: nat)
    requires IsSubsequence(a, b) && n <= |a|
    ensures IsSubsequence(a[..n], b)
    decreases |b|
  {
    if n > 0 {
      if a[0] == b[0] {
        PrefixOfSubsequence(a[1..], b[1..], n - 1);
        assert a[..n][1..] == a[1..][..n - 1];
      } else {
        PrefixOfSubsequence(a, b[1..], n);
      }
    }
  }

  /** `"".join(ch for ch in s if ch.isdigit() or ch == ".")`, or without the
      dot when `allowDot` is false. */
  function KeepAllowed(s: string, allowDot: bool): (r: string)
    ensures |r| <= |s|
    ensures forall k :: 0 <= k < |r| ==> Allowed(r[k], allowDot)
    ensures IsSubsequence(r, s)
  {
    if s == [] then []
    else
      var rest := KeepAllowed(s[1..], allowDot);
      if Allowed(s[0], allowDot) then
        assert ([s[0]] + rest)[1..] == rest;
        [s[0]] + rest
      else
        rest
  }

  /** Filtering a concatenation filters each part: the kept characters keep
      their order, and each character is kept or dropped on its own. */
  lemma {:induction false} KeepAllowedAppend(a: string, b: string, allowDot: bool)
    ensures KeepAllowed(a + b, allowDot) == KeepAllowed(a, allowDot) + KeepAllowed(b, allowDot)
  {
    if a == [] {
      assert a + b == b;
    } else {
      assert (a + b)[1..] == a[1..] + b;
      KeepAllowedAppend(a[1..], b, allowDot);
    }
  }

  lemma KeepAllowedSingle(c: char, allowDot: bool)
    ensures KeepAllowed([c], allowDot) == if Allowed(c, allowDot) then [c] else []
  {
    assert [c][1..] == [];
  }

  lemma {:induction false} KeepAllowedHasDot(s: string)
    ensures '.' in KeepAllowed(s, true) <==> '.' in s
  {
    if s != [] {
      KeepAllowedHasDot(s[1..]);
      assert s == [s[0]] + s[1..];
    }
  }

  /** `filtered.replace(".", "")` */
  function RemoveDots(s: string): (r: string)
    ensures '.' !in r
    ensures |r| <= |s|
    ensures forall k :: 0 <= k < |r| ==> r[k] in s
  {
    if s == [] then []
    else (if s[0] == '.' then [] else [s[0]]) + RemoveDots(s[1..])
  }

  lemma {:induction false} RemoveDotsOfKept(s: string)
    ensures RemoveDots(KeepAllowed(s, true)) == KeepAllowed(s, false)
  {
    if s != [] {
      RemoveDotsOfKept(s[1..]);
      var rest := KeepAllowed(s[1..], true);
      if Allowed(s[0], true) {
        var k := [s[0]] + rest;
        assert KeepAllowed(s, true) == k && k[0] == s[0] && k[1..] == rest;
        if s[0] == '.' {
          assert RemoveDots(k) == [] + RemoveDots(rest);
        } else {
          assert RemoveDots(k) == [s[0]] + RemoveDots(rest);
        }
      } else {
        assert KeepAllowed(s, true) == rest;
      }
    }
  }

  function Min(a: int, b: int): int { if a <= b then a else b }

  /** Whether the filter lets a dot through: only in a decimal field, and
      only when the field has no dot yet or the inserted text has none. */
  predicate DotAllowed(text: string, substring: string, allowFloat: bool)
  {
    allowFloat && !('.' in text && '.' in substring)
  }

  /** The filter of `insert_text` (lines 69-74): the digits of the inserted
      text and, in a decimal field, its dots, which are dropped again when
      the field already holds a dot. Either way it is one character filter,
      with or without dots. */
  function Filter(text: string, substring: string, allowFloat: bool): (f: string)
    ensures f == KeepAllowed(substring, DotAllowed(text, substring, allowFloat))
  {
    if allowFloat then
      var f := KeepAllowed(substring, true);
      KeepAllowedHasDot(substring);
      RemoveDotsOfKept(substring);
      if '.' in text && '.' in f then RemoveDots(f) else f
    else
      KeepAllowed(substring, false)
  }

  /** `remain = max(0, max_len - len(text))`, the early return when it is
      zero, and `filtered[:remain]`: `None` when there is no room, otherwise
      the longest prefix of `filtered` that fits in `room`. */
  function Truncate(filtered: string, room: int): (r: Option<string>)
    ensures r.None? <==> room <= 0
    ensures r.Some? ==> r.value <= filtered && |r.value| == Min(room, |filtered|)
  {
    var remain := if room > 0 then room else 0;
    if remain <= 0 then None
    else if |filtered| > remain then Some(filtered[..remain])
    else Some(filtered)
  }

  /** `DigitInput.insert_text`: `None` when the field returns without calling
      the toolkit (no room left), otherwise the string it hands on. */
  function InsertText(text: string, substring: string, maxLen: int, allowFloat: bool): (r: Option<string>)
    ensures r.None? <==> maxLen <= |text|
    ensures r.Some? ==> |text| + |r.value| <= maxLen
    ensures r.Some? ==> IsSubsequence(r.value, substring)
    ensures r.Some? ==> forall k :: 0 <= k < |r.value| ==> Allowed(r.value[k], allowFloat)
    ensures r.Some? && '.' in text ==> '.' !in r.value
    ensures r.Some? ==>
      var kept := KeepAllowed(substring, DotAllowed(text, substring, allowFloat));
      r.value <= kept && |r.value| == Min(maxLen - |text|, |kept|)
  {
    var filtered := Filter(text, substring, allowFloat);
    var r := Truncate(filtered, maxLen - |text|);
    var n := if r.Some? then |r.value| else 0;
    PrefixOfSubsequence(filtered, substring, n);
    KeepAllowedHasDot(substring);
    assert r.Some? ==> r.value == filtered[..n];
    r
  }

  /** What a field may hold: digits, and dots in a decimal field. */
  predicate FieldText(text: string, allowFloat: bool)
  {
    forall k :: 0 <= k < |text| ==> Allowed(text[k], allowFloat)
  }

  function InsertAt(text: string, cursor: nat, ins: Option<string>): string
    requires cursor <= |text|
  {
    if ins.Some? then text[..cursor] + ins.value + text[cursor..] else text
  }

  /** Wherever the cursor is, a field that holds only accepted characters and
      respects its length budget still does so after an insertion. */
  lemma InsertKeepsField(text: string, substring: string, maxLen: int, allowFloat: bool, cursor: nat)
    requires cursor <= |text| && FieldText(text, allowFloat) && |text| <= maxLen
    ensures var t := InsertAt(text, cursor, InsertText(text, substring, maxLen, allowFloat));
            FieldText(t, allowFloat) && |t| <= maxLen
  {
    var r := InsertText(text, substring, maxLen, allowFloat);
    if r.Some? {
      var t := InsertAt(text, cursor, r);
      forall k | 0 <= k < |t| ensures Allowed(t[k], allowFloat) {
        if k < cursor { assert t[k] == text[k]; }
        else if k < cursor + |r.value| { assert t[k] == r.value[k - cursor]; }
        else { assert t[k] == text[k - |r.value|]; }
      }
    }
  }

  // ---------------------------------------------------------------------
  // A second dot can get in

  /** As written, the filter drops dots only when the field already holds
      one: a pasted string with two dots goes through whole into an empty
      field, which then no longer parses as a number. */
  lemma TwoDotsGetIn()
    ensures InsertText("", "1..5", 5, true) == Some("1..5")
    ensures ParseFloat("1..5") == None
  {
    assert KeepAllowed("1..5", true) == "1..5" by {
      assert "1..5"[1..] == "..5" && "..5"[1..] == ".5" && ".5"[1..] == "5" && "5"[1..] == [];
    }
    assert FirstIndexOf("1..5", '.') == 1 by {
      assert "1..5"[1..] == "..5";
    }
    assert "1..5"[2..] == ".5";
    assert !AllDigits("1..5"[2..]);
  }

  /** Digits and the first dot of `s`; later dots are dropped. */
  function KeepFirstDot(s: string): (r: string)
    ensures DotCount(r) <= 1
    ensures DotCount(s) <= 1 ==> r == s
    ensures forall k :: 0 <= k < |r| ==> r[k] in s
    ensures RemoveDots(r) == RemoveDots(s) && IsSubsequence(r, s)
    ensures var i := FirstIndexOf(s, '.'); i < |s| ==> i < |r| && r[..i + 1] == s[..i + 1]
  {
    var i := FirstIndexOf(s, '.');
    if i == |s| then DotCountZero(s); SubsequenceOfSelf(s); s
    else
      KeptAfterFirstDot(s, i);
      KeptRemoveDots(s, i);
      s[..i + 1] + RemoveDots(s[i + 1..])
  }

  /** Keeping the first dot loses no digit, and deletes only characters. */
  lemma KeptRemoveDots(s: string, i: nat)
    requires i < |s|
    ensures var r := s[..i + 1] + RemoveDots(s[i + 1..]);
            RemoveDots(r) == RemoveDots(s) && IsSubsequence(r, s)
  {
    var p, t := s[..i + 1], s[i + 1..];
    assert s == p + t;
    RemoveDotsAppend(p, RemoveDots(t));
    RemoveDotsAppend(p, t);
    RemoveDotsNoDots(RemoveDots(t));
    RemoveDotsSubsequence(t);
    SubsequenceSamePrefix(p, RemoveDots(t), t);
  }

  lemma {:induction false} RemoveDotsAppend(a: string, b: string)
    ensures RemoveDots(a + b) == RemoveDots(a) + RemoveDots(b)
  {
    if a == [] {
      assert a + b == b;
    } else {
      assert (a + b)[1..] == a[1..] + b;
      RemoveDotsAppend(a[1..], b);
    }
  }

  lemma {:induction false} RemoveDotsSubsequence(s: string)
    ensures IsSubsequence(RemoveDots(s), s)
  {
    if s != [] {
      RemoveDotsSubsequence(s[1..]);
      var rest := RemoveDots(s[1..]);
      if s[0] == '.' {
        assert RemoveDots(s) == [] + rest == rest;
        SubsequenceSkip(rest, s[0], s[1..]);
        assert [s[0]] + s[1..] == s;
      } else {
        var r := [s[0]] + rest;
        assert RemoveDots(s) == r && r[0] == s[0] && r[1..] == rest;
      }
    }
  }

  lemma {:induction false} SubsequenceOfSelf(s: string)
    ensures IsSubsequence(s, s)
  {
    if s != [] {
      SubsequenceOfSelf(s[1..]);
    }
  }

  /** A subsequence stays one when a character is put in front. */
  lemma {:induction false} SubsequenceSkip(a: string, c: char, b: string)
    requires IsSubsequence(a, b)
    ensures IsSubsequence(a, [c] + b)
    decreases |b|, 1
  {
    assert ([c] + b)[1..] == b;
    if a != [] && a[0] == c {
      SubsequenceTail(a, b);
    }
  }

  /** Dropping the first character of a subsequence leaves a subsequence. */
  lemma {:induction false} SubsequenceTail(a: string, b: string)
    requires IsSubsequence(a, b) && a != []
    ensures IsSubsequence(a[1..], b)
    decreases |b|, 0
  {
    if a[0] == b[0] {
      SubsequenceSkip(a[1..], b[0], b[1..]);
      assert [b[0]] + b[1..] == b;
    } else {
      SubsequenceTail(a, b[1..]);
      SubsequenceSkip(a[1..], b[0], b[1..]);
      assert [b[0]] + b[1..] == b;
    }
  }

  lemma {:induction false} SubsequenceSamePrefix(p: string, a: string, b: string)
    requires IsSubsequence(a, b)
    ensures IsSubsequence(p + a, p + b)
  {
    if p == [] {
      assert p + a == a && p + b == b;
    } else {
      assert (p + a)[0] == p[0] == (p + b)[0];
      assert (p + a)[1..] == p[1..] + a && (p + b)[1..] == p[1..] + b;
      SubsequenceSamePrefix(p[1..], a, b);
    }
  }

  /** Keeping the text up to the first dot and dropping the dots after it. */
  lemma KeptAfterFirstDot(s: string, i: nat)
    requires i < |s| && s[i] == '.' && forall k :: 0 <= k < i ==> s[k] != '.'
    ensures var r := s[..i + 1] + RemoveDots(s[i + 1..]);
            DotCount(r) <= 1 && (DotCount(s) <= 1 ==> r == s) &&
            forall k :: 0 <= k < |r| ==> r[k] in s
  {
    KeptDotCount(s, i);
    KeptChars(s, i);
    if DotCount(s) <= 1 {
      DotsAfterIndex(s, i);
      assert s[..i + 1] + s[i + 1..] == s;
    }
  }

  lemma KeptDotCount(s: string, i: nat)
    requires i < |s| && s[i] == '.' && forall k :: 0 <= k < i ==> s[k] != '.'
    ensures DotCount(s[..i + 1] + RemoveDots(s[i + 1..])) == 1
  {
    DotsBeforeIndex(s, i);
    DotCountAppend(s[..i + 1], RemoveDots(s[i + 1..]));
    DotCountZero(RemoveDots(s[i + 1..]));
  }

  lemma KeptChars(s: string, i: nat)
    requires i < |s|
    ensures var r := s[..i + 1] + RemoveDots(s[i + 1..]);
            forall k :: 0 <= k < |r| ==> r[k] in s
  {
    var t := RemoveDots(s[i + 1..]);
    var r := s[..i + 1] + t;
    forall k | 0 <= k < |r| ensures r[k] in s {
      if k > i {
        assert r[k] == t[k - i - 1];
        assert t[k - i - 1] in s[i + 1..];
      } else {
        assert r[k] == s[k];
      }
    }
  }

  lemma DotsBeforeIndex(s: string, i: nat)
    requires i < |s| && s[i] == '.' && forall k :: 0 <= k < i ==> s[k] != '.'
    ensures DotCount(s[..i + 1]) == 1
  {
    DotCountZero(s[..i]);
    assert s[..i + 1] == s[..i] + [s[i]];
    DotCountAppend(s[..i], [s[i]]);
    assert DotCount([s[i]]) == 1;
  }

  lemma {:induction false} RemoveDotsNoDots(s: string)
    requires '.' !in s
    ensures RemoveDots(s) == s
  {
    if s != [] {
      assert '.' !in s[1..];
      RemoveDotsNoDots(s[1..]);
      assert s == [s[0]] + s[1..];
    }
  }

  lemma DotsAfterIndex(s: string, i: nat)
    requires i < |s| && s[i] == '.' && forall k :: 0 <= k < i ==> s[k] != '.'
    ensures DotCount(s) <= 1 ==> RemoveDots(s[i + 1..]) == s[i + 1..]
  {
    if DotCount(s) <= 1 {
      assert s == s[..i + 1] + s[i + 1..];
      DotsBeforeIndex(s, i);
      DotCountAppend(s[..i + 1], s[i + 1..]);
      DotCountZero(s[i + 1..]);
      RemoveDotsNoDots(s[i + 1..]);
    }
  }

  /** The filter as evidently intended: in a decimal field with no dot yet,
      the digits and only the first dot of the inserted text; otherwise its
      digits alone. */
  function FilterSingleDot(text: string, substring: string, allowFloat: bool): (f: string)
    ensures forall k :: 0 <= k < |f| ==> Allowed(f[k], allowFloat)
    ensures DotCount(f) + (if '.' in text then 1 else 0) <= 1
    ensures RemoveDots(f) == KeepAllowed(substring, false)
    ensures (!allowFloat || '.' in text || DotCount(substring) <= 1) ==> f == Filter(text, substring, allowFloat)
    ensures allowFloat && '.' !in text && '.' in substring ==> DotCount(f) == 1
  {
    RemoveDotsOfKept(substring);
    DigitsOnly(substring);
    KeepAllowedNoDot(substring);
    DotCountKept(substring);
    if allowFloat && '.' !in text then
      var f := KeepFirstDot(KeepAllowed(substring, true));
      KeepAllowedHasDot(substring);
      assert '.' in substring ==> DotCount(f) == 1 by {
        if '.' in substring { KeepFirstDotKeepsADot(KeepAllowed(substring, true)); }
      }
      assert forall k :: 0 <= k < |f| ==> Allowed(f[k], allowFloat);
      f
    else
      KeepAllowed(substring, false)
  }

  /** A text holding a dot keeps exactly one after `KeepFirstDot`: the
      first. */
  lemma KeepFirstDotKeepsADot(s: string)
    requires '.' in s
    ensures DotCount(KeepFirstDot(s)) == 1
  {
    var r := KeepFirstDot(s);
    var i := FirstIndexOf(s, '.');
    assert i < |s|;
    assert r[..i + 1] == s[..i + 1];
    assert forall k :: 0 <= k <= i ==> r[k] == s[..i + 1][k];
    DotsBeforeIndex(r, i);
    DotCountPrefix(r, i + 1);
  }

  /** The integer filter keeps no dot, so dropping dots changes nothing. */
  lemma DigitsOnly(s: string)
    ensures '.' !in KeepAllowed(s, false) && DotCount(KeepAllowed(s, false)) == 0
    ensures RemoveDots(KeepAllowed(s, false)) == KeepAllowed(s, false)
  {
    var k := KeepAllowed(s, false);
    assert forall j :: 0 <= j < |k| ==> k[j] != '.';
    DotCountZero(k);
    RemoveDotsNoDots(k);
  }

  /** On text without a dot, the decimal filter is the integer filter. */
  lemma KeepAllowedNoDot(s: string)
    ensures '.' !in s ==> KeepAllowed(s, true) == KeepAllowed(s, false)
  {
    if '.' !in s {
      KeepAllowedHasDot(s);
      RemoveDotsOfKept(s);
      RemoveDotsNoDots(KeepAllowed(s, true));
    }
  }

  lemma {:induction false} DotCountKept(s: string)
    ensures DotCount(KeepAllowed(s, true)) == DotCount(s)
  {
    if s != [] {
      DotCountKept(s[1..]);
      var rest := KeepAllowed(s[1..], true);
      if Allowed(s[0], true) {
        assert ([s[0]] + rest)[1..] == rest;
      }
    }
  }

  /** The insertion as evidently intended: the same budget rule, applied to
      the corrected filter. It agrees with `InsertText` whenever one
      insertion cannot bring in a second dot. */
  function InsertTextSingleDot(text: string, substring: string, maxLen: int, allowFloat: bool): (r: Option<string>)
    ensures (!allowFloat || '.' in text || DotCount(substring) <= 1) ==>
              r == InsertText(text, substring, maxLen, allowFloat)
    ensures r.None? <==> maxLen <= |text|
    ensures r.Some? ==>
      var kept := FilterSingleDot(text, substring, allowFloat);
      r.value <= kept && |r.value| == Min(maxLen - |text|, |kept|)
    ensures r.Some? ==> |text| + |r.value| <= maxLen
    ensures r.Some? ==> forall k :: 0 <= k < |r.value| ==> Allowed(r.value[k], allowFloat)
    ensures r.Some? ==> DotCount(r.value) + (if '.' in text then 1 else 0) <= 1
  {
    var filtered := FilterSingleDot(text, substring, allowFloat);
    var r := Truncate(filtered, maxLen - |text|);
    var n := if r.Some? then |r.value| else 0;
    DotCountPrefix(filtered, n);
    assert r.Some? ==> r.value == filtered[..n];
    r
  }

  lemma DotCountPrefix(s: string, n: nat)
    requires n <= |s|
    ensures DotCount(s[..n]) <= DotCount(s)
  {
    assert s == s[..n] + s[n..];
    DotCountAppend(s[..n], s[n..]);
  }

  /** With the intended filter, a decimal field holding at most one dot keeps
      holding at most one dot, wherever the insertion happens. */
  lemma SingleDotKeepsOneDot(text: string, substring: string, maxLen: int, cursor: nat)
    requires cursor <= |text| && DotCount(text) <= 1
    ensures DotCount(InsertAt(text, cursor, InsertTextSingleDot(text, substring, maxLen, true))) <= 1
  {
    var r := InsertTextSingleDot(text, substring, maxLen, true);
    if r.Some? {
      DotCountInsert(text, cursor, r.value);
      DotCountZero(text);
    }
  }

  /** The dots of a field after an insertion: its own and the inserted ones. */
  lemma DotCountInsert(text: string, cursor: nat, ins: string)
    requires cursor <= |text|
    ensures DotCount(InsertAt(text, cursor, Some(ins))) == DotCount(text) + DotCount(ins)
  {
    var pre, post := text[..cursor], text[cursor..];
    assert text == pre + post;
    assert InsertAt(text, cursor, Some(ins)) == (pre + ins) + post;
    DotCountAppend(pre, post);
    DotCountAppend(pre, ins);
    DotCountAppend(pre + ins, post);
  }
}
