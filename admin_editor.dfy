/**
 * The option list editor of the vehicle edit screen (assets/js/admin.js):
 * each category's rows can be added from a template, removed and dragged
 * into a new order; after every edit `updateOptionIndexes` renumbers the
 * rows and rewrites the `<type>_options[k]` part of every field name to the
 * row's position. On submit every required input must be non-empty.
 */
module AdminEditor {
  import opened Text
  import opened Records

  // -----------------------------------------------------------------------
  // The regex `<type>_options\[\d+\]` and its global replacement

  /** The number of decimal digits in `s` from position `i` on, up to the first non-digit. */
  function DigitRun(s: string, i: nat): (d: nat)
    requires i <= |s|
    ensures i + d <= |s|
    decreases |s| - i
  {
    if i < |s| && IsDigit(s[i]) then 1 + DigitRun(s, i + 1) else 0
  }

  /** The digit run is what it looks like: digits, then the end or a non-digit. */
  lemma {:induction false} DigitRunShape(s: string, i: nat)
    requires i <= |s|
    ensures forall j :: i <= j < i + DigitRun(s, i) ==> IsDigit(s[j])
    ensures i + DigitRun(s, i) < |s| ==> !IsDigit(s[i + DigitRun(s, i)])
    decreases |s| - i
  {
    if i < |s| && IsDigit(s[i]) {
      DigitRunShape(s, i + 1);
    }
  }

  /** A run of `d` digits followed by a non-digit has length `d`. */
  lemma {:induction false} DigitRunIs(s: string, i: nat, d: nat)
    requires i + d < |s| && !IsDigit(s[i + d])
    requires forall j :: i <= j < i + d ==> IsDigit(s[j])
    ensures DigitRun(s, i) == d
    decreases d
  {
    if d > 0 {
      DigitRunIs(s, i + 1, d - 1);
    }
  }

  /**
   * The length of the match of `pre` followed by one or more digits and `]`
   * at the start of `s`, or 0 when there is none. The digits are the
   * longest run, as the greedy `\d+` takes them.
   */
  function MatchLen(s: string, pre: string): (m: nat)
    ensures m == 0 || |pre| + 2 <= m <= |s|
  {
    if |pre| <= |s| && s[..|pre|] == pre then
      var d := DigitRun(s, |pre|);
      if d > 0 && |pre| + d < |s| && s[|pre| + d] == ']' then |pre| + d + 1 else 0
    else 0
  }

  /** What a match looks like: `pre`, digits, `]`. */
  lemma {:induction false} MatchShape(s: string, pre: string)
    requires MatchLen(s, pre) > 0
    ensures var m := MatchLen(s, pre);
            && s[..|pre|] == pre && s[m - 1] == ']'
            && forall i :: |pre| <= i < m - 1 ==> IsDigit(s[i])
  {
    DigitRunShape(s, |pre|);
  }

  /** Any string shaped like a match of length `m` matches with that length. */
  lemma {:induction false} MatchLenIs(s: string, pre: string, m: nat)
    requires |pre| + 2 <= m <= |s|
    requires s[..|pre|] == pre && s[m - 1] == ']'
    requires forall i :: |pre| <= i < m - 1 ==> IsDigit(s[i])
    ensures MatchLen(s, pre) == m
  {
    DigitRunIs(s, |pre|, m - 1 - |pre|);
  }

  /** A match depends only on the characters it covers. */
  lemma {:induction false} MatchLenLocal(s: string, t: string, pre: string)
    requires MatchLen(s, pre) > 0
    requires MatchLen(s, pre) <= |t| && t[..MatchLen(s, pre)] == s[..MatchLen(s, pre)]
    ensures MatchLen(t, pre) == MatchLen(s, pre)
  {
    var m := MatchLen(s, pre);
    MatchShape(s, pre);
    assert t[..|pre|] == s[..m][..|pre|];
    forall i | |pre| <= i < m ensures t[i] == s[i] {
      assert t[i] == t[..m][i];
    }
    MatchLenIs(t, pre, m);
  }

  /**
   * `name.replace(new RegExp(pre + '\\d+\\]', 'g'), pre + idx + ']')`:
   * scanning from the left, each match is replaced and the scan resumes
   * after it; every other character is kept.
   */
  function Rewrite(s: string, pre: string, idx: string): string
    decreases |s|
  {
    if s == [] then []
    else
      var m := MatchLen(s, pre);
      if m > 0 then pre + idx + "]" + Rewrite(s[m..], pre, idx)
      else [s[0]] + Rewrite(s[1..], pre, idx)
  }

  /**
   * The pattern keys of the editor, `subscription_options[` and its
   * siblings: a `[` only at the end, and a first character that is neither
   * a digit nor `]`.
   */
  predicate ValidKey(pre: string)
  {
    && |pre| >= 1
    && pre[|pre| - 1] == '['
    && (forall i :: 0 <= i < |pre| - 1 ==> pre[i] != '[')
    && !IsDigit(pre[0]) && pre[0] != ']'
  }

  /** A replacement index: one or more digits. */
  predicate IsIndex(idx: string)
  {
    |idx| >= 1 && AllDigits(idx)
  }

  /** A replaced segment matches again, with its own length. */
  lemma {:induction false} SegmentMatches(pre: string, idx: string, t: string)
    requires IsIndex(idx)
    ensures MatchLen(pre + idx + "]" + t, pre) == |pre| + |idx| + 1
  {
    var s := pre + idx + "]" + t;
    assert s[..|pre|] == pre;
    forall i | |pre| <= i < |pre| + |idx| ensures IsDigit(s[i]) {
      assert s[i] == idx[i - |pre|];
    }
    MatchLenIs(s, pre, |pre| + |idx| + 1);
  }

  /** How far `s` goes before a match starts: the first match position, or the length. */
  function MatchFree(s: string, pre: string): (k: nat)
    ensures k <= |s|
    ensures k < |s| ==> MatchLen(s[k..], pre) > 0
  {
    if s == [] || MatchLen(s, pre) > 0 then 0 else 1 + MatchFree(s[1..], pre)
  }

  lemma {:induction false} AppendAssoc(a: string, b: string, c: string)
    ensures a + (b + c) == (a + b) + c
  {
  }

  /** Slicing after the first character. */
  lemma {:induction false} Uncons(s: string, k: nat)
    requires k < |s|
    ensures s[..k + 1] == [s[0]] + s[1..][..k] && s[1..][k..] == s[k + 1..]
  {
  }

  /** Before the first match the rewrite copies the string. */
  lemma {:induction false} RewriteCopiesFree(s: string, pre: string, idx: string)
    ensures var k := MatchFree(s, pre);
            Rewrite(s, pre, idx) == s[..k] + Rewrite(s[k..], pre, idx)
  {
    var k := MatchFree(s, pre);
    if k > 0 {
      var rest := s[1..];
      RewriteCopiesFree(rest, pre, idx);
      CopiesStep(s, pre, idx, Rewrite(rest, pre, idx), k - 1);
    } else {
      assert s[..0] == [] && s[0..] == s;
    }
  }

  lemma {:induction false} CopiesStep(s: string, pre: string, idx: string, r: string, j: nat)
    requires j + 1 <= |s|
    requires s != [] && MatchLen(s, pre) == 0
    requires r == Rewrite(s[1..], pre, idx)
    requires r == s[1..][..j] + Rewrite(s[1..][j..], pre, idx)
    ensures Rewrite(s, pre, idx) == s[..j + 1] + Rewrite(s[j + 1..], pre, idx)
  {
    assert Rewrite(s, pre, idx) == [s[0]] + r;
    Uncons(s, j);
    AppendAssoc([s[0]], s[1..][..j], Rewrite(s[1..][j..], pre, idx));
  }

  /**
   * A replaced segment at position `k` >= 1 blocks any match at the start
   * that would reach past `k`: the match would need a second `[` in the
   * key, or a key starting with a digit or `]`.
   */
  lemma {:induction false} SegmentBlocks(o: string, pre: string, k: nat)
    requires ValidKey(pre) && 1 <= k && k + |pre| <= |o| && o[k..k + |pre|] == pre
    ensures MatchLen(o, pre) <= k
  {
    var m := MatchLen(o, pre);
    if m > k {
      MatchShape(o, pre);
      assert false;
    }
  }

  /** The rewrite copies the string up to its first match after the start. */
  lemma {:induction false} SplitAtFirstMatch(s: string, pre: string, idx: string) returns (k: nat)
    requires s != [] && MatchLen(s, pre) == 0
    ensures 1 <= k <= |s|
    ensures Rewrite(s, pre, idx) == s[..k] + Rewrite(s[k..], pre, idx)
    ensures k < |s| ==> MatchLen(s[k..], pre) > 0
  {
    k := MatchFree(s, pre);
    RewriteCopiesFree(s, pre, idx);
  }

  /** A match at the start that ends within a copied prefix is a match of the original. */
  lemma {:induction false} MatchWithinPrefix(o: string, s: string, pre: string, k: nat)
    requires k <= |o| && k <= |s| && o[..k] == s[..k]
    requires MatchLen(o, pre) <= k && MatchLen(s, pre) == 0
    ensures MatchLen(o, pre) == 0
  {
    var m := MatchLen(o, pre);
    if m > 0 {
      assert o[..m] == s[..m];
      MatchLenLocal(o, s, pre);
      assert false;
    }
  }

  /**
   * The rewrite creates no new match: where the original has none at its
   * start, the rewritten string has none either.
   */
  lemma {:induction false} NoNewMatch(s: string, pre: string, idx: string)
    requires ValidKey(pre) && IsIndex(idx)
    requires s != [] && MatchLen(s, pre) == 0
    ensures MatchLen(Rewrite(s, pre, idx), pre) == 0
  {
    var o := Rewrite(s, pre, idx);
    var k := SplitAtFirstMatch(s, pre, idx);
    var r := Rewrite(s[k..], pre, idx);
    if k < |s| {
      RewriteStartsWithKey(s[k..], pre, idx);
      assert o[k..k + |pre|] == r[..|pre|];
      SegmentBlocks(o, pre, k);
    } else {
      assert r == [];
    }
    MatchWithinPrefix(o, s, pre, k);
  }

  /** Where a match starts, the rewritten string starts with the key. */
  lemma {:induction false} RewriteStartsWithKey(t: string, pre: string, idx: string)
    requires MatchLen(t, pre) > 0
    ensures |Rewrite(t, pre, idx)| >= |pre| && Rewrite(t, pre, idx)[..|pre|] == pre
  {
    var rest := Rewrite(t[MatchLen(t, pre)..], pre, idx);
    assert Rewrite(t, pre, idx) == pre + (idx + "]" + rest);
  }

  /** Rewriting a second time with the same index changes nothing. */
  lemma {:induction false} RewriteIdempotent(s: string, pre: string, idx: string)
    requires ValidKey(pre) && IsIndex(idx)
    ensures Rewrite(Rewrite(s, pre, idx), pre, idx) == Rewrite(s, pre, idx)
    decreases |s|
  {
    if s != [] {
      var m := MatchLen(s, pre);
      var r := Rewrite(s, pre, idx);
      if m > 0 {
        var rest := Rewrite(s[m..], pre, idx);
        SegmentMatches(pre, idx, rest);
        assert r[|pre| + |idx| + 1..] == rest;
        RewriteIdempotent(s[m..], pre, idx);
      } else {
        NoNewMatch(s, pre, idx);
        assert r[1..] == Rewrite(s[1..], pre, idx);
        RewriteIdempotent(s[1..], pre, idx);
      }
    }
  }

  /** The indices the pattern finds in a name, left to right. */
  function Indices(s: string, pre: string): seq<string>
    decreases |s|
  {
    if s == [] then []
    else
      var m := MatchLen(s, pre);
      if m > 0 then [s[|pre|..m - 1]] + Indices(s[m..], pre)
      else Indices(s[1..], pre)
  }

  /**
   * The name with the indices cut out: what the rewrite must leave alone.
   * Each match becomes `pre` and `]`.
   */
  function Skeleton(s: string, pre: string): string
    decreases |s|
  {
    if s == [] then []
    else
      var m := MatchLen(s, pre);
      if m > 0 then pre + "]" + Skeleton(s[m..], pre)
      else [s[0]] + Skeleton(s[1..], pre)
  }

  /** A name in which the pattern finds no index is left as it is. */
  lemma {:induction false} RewriteNoMatch(s: string, pre: string, idx: string)
    requires Indices(s, pre) == []
    ensures Rewrite(s, pre, idx) == s
    decreases |s|
  {
    if s != [] {
      assert MatchLen(s, pre) == 0;
      RewriteNoMatch(s[1..], pre, idx);
    }
  }

  /** `n` copies of `x`. */
  function Repeat(x: string, n: nat): (r: seq<string>)
    ensures |r| == n && forall i :: 0 <= i < n ==> r[i] == x
  {
    if n == 0 then [] else [x] + Repeat(x, n - 1)
  }

  /** A replaced segment contributes its index, then the rest follows. */
  lemma {:induction false} IndicesOfSegment(pre: string, idx: string, rest: string)
    requires IsIndex(idx)
    ensures Indices(pre + idx + "]" + rest, pre) == [idx] + Indices(rest, pre)
  {
    var t := pre + idx + "]" + rest;
    var n := |pre| + |idx| + 1;
    SegmentMatches(pre, idx, rest);
    assert t[|pre|..n - 1] == idx && t[n..] == rest;
  }

  /**
   * Every `pre<k>]` in a name becomes `pre<idx>]`: the rewritten name has
   * as many indices as before, all equal to `idx`.
   */
  lemma {:induction false} RewriteIndices(s: string, pre: string, idx: string)
    requires ValidKey(pre) && IsIndex(idx)
    ensures Indices(Rewrite(s, pre, idx), pre) == Repeat(idx, |Indices(s, pre)|)
    decreases |s|
  {
    if s != [] {
      var m := MatchLen(s, pre);
      var r := Rewrite(s, pre, idx);
      if m > 0 {
        var rest := Rewrite(s[m..], pre, idx);
        IndicesOfSegment(pre, idx, rest);
        RewriteIndices(s[m..], pre, idx);
      } else {
        NoNewMatch(s, pre, idx);
        assert r[1..] == Rewrite(s[1..], pre, idx);
        RewriteIndices(s[1..], pre, idx);
      }
    }
  }

  /** The rest of the name is unchanged: cutting the indices out gives the same skeleton. */
  lemma {:induction false} RewriteSkeleton(s: string, pre: string, idx: string)
    requires ValidKey(pre) && IsIndex(idx)
    ensures Skeleton(Rewrite(s, pre, idx), pre) == Skeleton(s, pre)
    decreases |s|
  {
    if s != [] {
      var m := MatchLen(s, pre);
      var r := Rewrite(s, pre, idx);
      if m > 0 {
        var rest := Rewrite(s[m..], pre, idx);
        SegmentMatches(pre, idx, rest);
        assert r[|pre| + |idx| + 1..] == rest;
        RewriteSkeleton(s[m..], pre, idx);
      } else {
        NoNewMatch(s, pre, idx);
        assert r[1..] == Rewrite(s[1..], pre, idx) && r[0] == s[0];
        RewriteSkeleton(s[1..], pre, idx);
      }
    }
  }

  // -----------------------------------------------------------------------
  // Rows

  /**
   * An input, select or textarea of a row: its `name` attribute ("" when it
   * has none), its value, whether it is `required` and whether it carries
   * the `error` class.
   */
  datatype Field = Field(name: string, value: string, required: bool, error: bool)

  /** A `.leasing-option-item`: the `.option-number` text and its fields. */
  datatype Row = Row(number: string, fields: seq<Field>)

  /** The name prefix of a category's fields: `subscription_options[` and so on. */
  function KeyPattern(c: Category): string
  {
    match c
    case Subscription => "subscription_options["
    case Insurance => "insurance_options["
    case Mileage => "mileage_options["
  }

  lemma {:induction false} KeyPatternValid(c: Category)
    ensures ValidKey(KeyPattern(c))
  {
  }

  /** A row position as an index: its decimal rendering. */
  lemma {:induction false} PositionIsIndex(i: nat)
    ensures IsIndex(IntToString(i))
  {
  }

  /** One field's name rewritten, when it has one. */
  function RenameField(f: Field, pre: string, idx: string): Field
  {
    if f.name != "" then f.(name := Rewrite(f.name, pre, idx)) else f
  }

  function RenameFields(fields: seq<Field>, pre: string, idx: string): (r: seq<Field>)
  {
    seq(|fields|, k requires 0 <= k < |fields| => RenameField(fields[k], pre, idx))
  }

  /** The row at position `i` after `updateOptionIndexes`: `#i+1` and names indexed `i`. */
  function ReindexRow(r: Row, pre: string, i: nat): Row
  {
    Row("#" + IntToString(i + 1), RenameFields(r.fields, pre, IntToString(i)))
  }

  function ReindexRows(rows: seq<Row>, pre: string): seq<Row>
  {
    seq(|rows|, i requires 0 <= i < |rows| => ReindexRow(rows[i], pre, i))
  }

  /**
   * After re-indexing, row `i` shows `#(i+1)`, the numbers are pairwise
   * distinct, every index in every field name is `i` and the names are
   * otherwise unchanged.
   */
  lemma {:induction false} ReindexedPositions(rows: seq<Row>, pre: string)
    requires ValidKey(pre)
    ensures var r := ReindexRows(rows, pre);
      && |r| == |rows|
      && (forall i :: 0 <= i < |r| ==> r[i].number == "#" + IntToString(i + 1) && |r[i].fields| == |rows[i].fields|)
      && (forall i, j :: 0 <= i < j < |r| ==> r[i].number != r[j].number)
      && (forall i, k, x :: 0 <= i < |r| && 0 <= k < |r[i].fields| && 0 <= x < |Indices(r[i].fields[k].name, pre)| ==>
            Indices(r[i].fields[k].name, pre)[x] == IntToString(i))
      && (forall i, k :: 0 <= i < |r| && 0 <= k < |r[i].fields| ==>
            Skeleton(r[i].fields[k].name, pre) == Skeleton(rows[i].fields[k].name, pre))
  {
    var r := ReindexRows(rows, pre);
    forall i, j | 0 <= i < j < |r| ensures r[i].number != r[j].number {
      if r[i].number == r[j].number {
        assert IntToString(i + 1) == r[i].number[1..];
        assert IntToString(j + 1) == r[j].number[1..];
        IntToStringInjective(i + 1, j + 1);
      }
    }
    forall i, k | 0 <= i < |r| && 0 <= k < |r[i].fields|
      ensures (forall x :: 0 <= x < |Indices(r[i].fields[k].name, pre)| ==>
                 Indices(r[i].fields[k].name, pre)[x] == IntToString(i))
      ensures Skeleton(r[i].fields[k].name, pre) == Skeleton(rows[i].fields[k].name, pre)
    {
      var name := rows[i].fields[k].name;
      if name != "" {
        PositionIsIndex(i);
        RewriteIndices(name, pre, IntToString(i));
        RewriteSkeleton(name, pre, IntToString(i));
      } else {
        assert Indices(name, pre) == [];
      }
    }
  }

  /** Re-indexing twice is re-indexing once. */
  lemma {:induction false} ReindexIdempotent(rows: seq<Row>, pre: string)
    requires ValidKey(pre)
    ensures ReindexRows(ReindexRows(rows, pre), pre) == ReindexRows(rows, pre)
  {
    var once := ReindexRows(rows, pre);
    var twice := ReindexRows(once, pre);
    forall i | 0 <= i < |rows| ensures twice[i] == once[i] {
      PositionIsIndex(i);
      var idx := IntToString(i);
      forall k | 0 <= k < |rows[i].fields| ensures twice[i].fields[k] == once[i].fields[k] {
        var f := rows[i].fields[k];
        if f.name != "" {
          RewriteIdempotent(f.name, pre, idx);
          assert Rewrite(f.name, pre, idx) != "";
        }
      }
    }
  }

  /** The `forEach` over a row's fields. */
  method RenameEach(fields: seq<Field>, pre: string, idx: string) returns (r: seq<Field>)
    ensures r == RenameFields(fields, pre, idx)
  {
    r := fields;
    var k := 0;
    while k < |r|
      invariant 0 <= k <= |r| == |fields|
      invariant forall x :: 0 <= x < k ==> r[x] == RenameFields(fields, pre, idx)[x]
      invariant forall x :: k <= x < |r| ==> r[x] == fields[x]
    {
      var name := r[k].name;
      if name != "" {
        r := r[k := r[k].(name := Rewrite(name, pre, idx))];
      }
      k := k + 1;
    }
  }

  /** `updateOptionIndexes`: the `each` over the rows of one list. */
  method ReindexEach(rows: seq<Row>, pre: string) returns (r: seq<Row>)
    ensures r == ReindexRows(rows, pre)
  {
    r := rows;
    var i := 0;
    while i < |r|
      invariant 0 <= i <= |r| == |rows|
      invariant forall x :: 0 <= x < i ==> r[x] == ReindexRows(rows, pre)[x]
      invariant forall x :: i <= x < |r| ==> r[x] == rows[x]
    {
      var fields := RenameEach(r[i].fields, pre, IntToString(i));
      r := r[i := Row("#" + IntToString(i + 1), fields)];
      i := i + 1;
    }
  }

  // -----------------------------------------------------------------------
  // Adding a row from the template

  /** The template placeholder. */
  const Placeholder: string := "{{data.index}}"

  /** `replace(/\{\{data\.index\}\}/g, rep)`: every occurrence of `pat`, left to right. */
  function ReplaceAll(s: string, pat: string, rep: string): string
    requires |pat| > 0
    decreases |s|
  {
    if s == [] then []
    else if |pat| <= |s| && s[..|pat|] == pat then rep + ReplaceAll(s[|pat|..], pat, rep)
    else [s[0]] + ReplaceAll(s[1..], pat, rep)
  }

  /** `pat` occurs in `s` at position `i`. */
  predicate OccursAt(s: string, pat: string, i: nat)
  {
    i + |pat| <= |s| && s[i..i + |pat|] == pat
  }

  /** Text without the placeholder is left as it is. */
  lemma {:induction false} ReplaceAllAbsent(s: string, pat: string, rep: string)
    requires |pat| > 0
    requires forall i :: 0 <= i < |s| ==> !OccursAt(s, pat, i)
    ensures ReplaceAll(s, pat, rep) == s
  {
    if s != [] {
      assert !OccursAt(s, pat, 0);
      var rest := s[1..];
      forall i | 0 <= i < |rest| ensures !OccursAt(rest, pat, i) {
        assert !OccursAt(s, pat, i + 1);
        if i + |pat| <= |rest| {
          assert rest[i..i + |pat|] == s[i + 1..i + 1 + |pat|];
        }
      }
      ReplaceAllAbsent(rest, pat, rep);
    }
  }

  /** The template's row with `{{data.index}}` replaced by `n` everywhere. */
  function Instantiate(template: Row, n: nat): Row
  {
    var idx := IntToString(n);
    Row(ReplaceAll(template.number, Placeholder, idx),
        seq(|template.fields|, k requires 0 <= k < |template.fields| =>
          template.fields[k].(name := ReplaceAll(template.fields[k].name, Placeholder, idx),
                              value := ReplaceAll(template.fields[k].value, Placeholder, idx))))
  }

  /** The list after the sortable drag of row `from` to position `to`. */
  function Moved(rows: seq<Row>, from: nat, to: nat): (r: seq<Row>)
    requires from < |rows| && to < |rows|
    ensures |r| == |rows|
  {
    var without := rows[..from] + rows[from + 1..];
    without[..to] + [rows[from]] + without[to..]
  }

  /** A drag only reorders: the same rows, as a multiset, with the dragged row at `to`. */
  lemma {:induction false} MovedPermutes(rows: seq<Row>, from: nat, to: nat)
    requires from < |rows| && to < |rows|
    ensures multiset(Moved(rows, from, to)) == multiset(rows)
    ensures Moved(rows, from, to)[to] == rows[from]
  {
    var without := rows[..from] + rows[from + 1..];
    assert rows == rows[..from] + [rows[from]] + rows[from + 1..];
    assert multiset(without) + multiset{rows[from]} == multiset(rows);
    assert without == without[..to] + without[to..];
    assert multiset(without[..to]) + multiset(without[to..]) == multiset(without);
  }

  // -----------------------------------------------------------------------
  // Required-field validation

  /** A required input gets the `error` class exactly when empty; others are untouched. */
  function CheckField(f: Field): Field
  {
    if f.required then f.(error := f.value == "") else f
  }

  function CheckFields(fields: seq<Field>): seq<Field>
  {
    seq(|fields|, k requires 0 <= k < |fields| => CheckField(fields[k]))
  }

  function CheckRows(rows: seq<Row>): seq<Row>
  {
    seq(|rows|, i requires 0 <= i < |rows| => rows[i].(fields := CheckFields(rows[i].fields)))
  }

  /** Every required input of the fields is non-empty. */
  predicate FieldsFilled(fields: seq<Field>)
  {
    forall k :: 0 <= k < |fields| && fields[k].required ==> fields[k].value != ""
  }

  predicate RowsFilled(rows: seq<Row>)
  {
    forall i :: 0 <= i < |rows| ==> FieldsFilled(rows[i].fields)
  }

  /**
   * After the check, a list is filled exactly when no required input
   * carries the `error` class; the check changes no name or value and a
   * second check changes nothing.
   */
  lemma {:induction false} CheckedErrors(rows: seq<Row>)
    ensures var c := CheckRows(rows);
      && |c| == |rows|
      && (RowsFilled(rows) <==>
          forall i, k :: 0 <= i < |c| && 0 <= k < |c[i].fields| && c[i].fields[k].required ==> !c[i].fields[k].error)
      && (forall i, k :: 0 <= i < |c| && 0 <= k < |c[i].fields| ==>
            c[i].fields[k].name == rows[i].fields[k].name && c[i].fields[k].value == rows[i].fields[k].value)
      && CheckRows(c) == c
  {
    var c := CheckRows(rows);
    if !RowsFilled(rows) {
      var i, k :| 0 <= i < |rows| && 0 <= k < |rows[i].fields| && rows[i].fields[k].required &&
                 rows[i].fields[k].value == "";
      assert c[i].fields[k].error;
    }
    assert CheckRows(c) == c by {
      forall i | 0 <= i < |c| ensures CheckRows(c)[i] == c[i] {
        assert CheckRows(c)[i].fields == c[i].fields;
      }
    }
  }

  /** The `each` over a row's required inputs, clearing `valid` on an empty one. */
  method CheckEach(fields: seq<Field>, valid0: bool) returns (r: seq<Field>, valid: bool)
    ensures r == CheckFields(fields)
    ensures valid <==> valid0 && FieldsFilled(fields)
  {
    r := fields;
    valid := valid0;
    var k := 0;
    while k < |r|
      invariant 0 <= k <= |r| == |fields|
      invariant forall x :: 0 <= x < k ==> r[x] == CheckField(fields[x])
      invariant forall x :: k <= x < |r| ==> r[x] == fields[x]
      invariant valid <==> valid0 && FieldsFilled(fields[..k])
    {
      if r[k].required {
        if r[k].value == "" {
          valid := false;
          r := r[k := r[k].(error := true)];
        } else {
          r := r[k := r[k].(error := false)];
        }
      }
      assert fields[..k + 1] == fields[..k] + [fields[k]];
      k := k + 1;
    }
    assert fields[..k] == fields;
  }

  /** The `each` over one list's required inputs. */
  method CheckList(rows: seq<Row>, valid0: bool) returns (r: seq<Row>, valid: bool)
    ensures r == CheckRows(rows)
    ensures valid <==> valid0 && RowsFilled(rows)
  {
    r := rows;
    valid := valid0;
    var i := 0;
    while i < |r|
      invariant 0 <= i <= |r| == |rows|
      invariant forall x :: 0 <= x < i ==> r[x] == CheckRows(rows)[x]
      invariant forall x :: i <= x < |r| ==> r[x] == rows[x]
      invariant valid <==> valid0 && RowsFilled(rows[..i])
    {
      var fields;
      fields, valid := CheckEach(r[i].fields, valid);
      r := r[i := r[i].(fields := fields)];
      assert rows[..i + 1] == rows[..i] + [rows[i]];
      i := i + 1;
    }
    assert rows[..i] == rows;
  }

  // -----------------------------------------------------------------------
  // The editor

  /** The three option lists of the meta box, as the editor changes them. */
  class OptionsEditor {
    var subscriptionRows: seq<Row>
    var insuranceRows: seq<Row>
    var mileageRows: seq<Row>

    function RowsOf(c: Category): seq<Row>
      reads this
    {
      match c
      case Subscription => subscriptionRows
      case Insurance => insuranceRows
      case Mileage => mileageRows
    }

    constructor (subscriptions: seq<Row>, insurances: seq<Row>, mileages: seq<Row>)
      ensures subscriptionRows == subscriptions && insuranceRows == insurances && mileageRows == mileages
    {
      subscriptionRows, insuranceRows, mileageRows := subscriptions, insurances, mileages;
    }

    /** Replaces one list, leaving the other two alone. */
    method SetRows(c: Category, rows: seq<Row>)
      modifies this
      ensures RowsOf(c) == rows
      ensures c != Subscription ==> subscriptionRows == old(subscriptionRows)
      ensures c != Insurance ==> insuranceRows == old(insuranceRows)
      ensures c != Mileage ==> mileageRows == old(mileageRows)
    {
      match c {
      case Subscription => subscriptionRows := rows;
      case Insurance => insuranceRows := rows;
      case Mileage => mileageRows := rows;
      }
    }

    /** `updateOptionIndexes(container, type)`. */
    method UpdateOptionIndexes(c: Category)
      modifies this
      ensures RowsOf(c) == ReindexRows(old(RowsOf(c)), KeyPattern(c))
      ensures c != Subscription ==> subscriptionRows == old(subscriptionRows)
      ensures c != Insurance ==> insuranceRows == old(insuranceRows)
      ensures c != Mileage ==> mileageRows == old(mileageRows)
    {
      var rows := ReindexEach(RowsOf(c), KeyPattern(c));
      SetRows(c, rows);
    }

    /** The add button: the template with `{{data.index}}` set to the row count, appended, then re-indexed. */
    method AddOption(c: Category, template: Row)
      modifies this
      ensures RowsOf(c) == ReindexRows(old(RowsOf(c)) + [Instantiate(template, |old(RowsOf(c))|)], KeyPattern(c))
      ensures |RowsOf(c)| == |old(RowsOf(c))| + 1
      ensures c != Subscription ==> subscriptionRows == old(subscriptionRows)
      ensures c != Insurance ==> insuranceRows == old(insuranceRows)
      ensures c != Mileage ==> mileageRows == old(mileageRows)
    {
      var optionCount := |RowsOf(c)|;
      var newOption := Instantiate(template, optionCount);
      var rows := ReindexEach(RowsOf(c) + [newOption], KeyPattern(c));
      SetRows(c, rows);
    }

    /** The remove button of row `j`: that row goes, the rest are re-indexed. */
    method RemoveOption(c: Category, j: nat)
      requires j < |RowsOf(c)|
      modifies this
      ensures RowsOf(c) == ReindexRows(old(RowsOf(c))[..j] + old(RowsOf(c))[j + 1..], KeyPattern(c))
      ensures |RowsOf(c)| == |old(RowsOf(c))| - 1
      ensures c != Subscription ==> subscriptionRows == old(subscriptionRows)
      ensures c != Insurance ==> insuranceRows == old(insuranceRows)
      ensures c != Mileage ==> mileageRows == old(mileageRows)
    {
      var before := RowsOf(c);
      var rows := ReindexEach(before[..j] + before[j + 1..], KeyPattern(c));
      SetRows(c, rows);
    }

    /** The sortable `update`: row `from` dragged to position `to`, then re-indexed. */
    method MoveOption(c: Category, from: nat, to: nat)
      requires from < |RowsOf(c)| && to < |RowsOf(c)|
      modifies this
      ensures RowsOf(c) == ReindexRows(Moved(old(RowsOf(c)), from, to), KeyPattern(c))
      ensures c != Subscription ==> subscriptionRows == old(subscriptionRows)
      ensures c != Insurance ==> insuranceRows == old(insuranceRows)
      ensures c != Mileage ==> mileageRows == old(mileageRows)
    {
      var rows := ReindexEach(Moved(RowsOf(c), from, to), KeyPattern(c));
      SetRows(c, rows);
    }

    /**
     * The submit check: every required input of the three lists gets or
     * loses the `error` class, and the form may be submitted exactly when
     * all of them are non-empty.
     */
    method Submit() returns (valid: bool)
      modifies this
      ensures subscriptionRows == CheckRows(old(subscriptionRows))
      ensures insuranceRows == CheckRows(old(insuranceRows))
      ensures mileageRows == CheckRows(old(mileageRows))
      ensures valid <==> RowsFilled(old(subscriptionRows)) && RowsFilled(old(insuranceRows)) &&
                         RowsFilled(old(mileageRows))
    {
      valid := true;
      subscriptionRows, valid := CheckList(subscriptionRows, valid);
      insuranceRows, valid := CheckList(insuranceRows, valid);
      mileageRows, valid := CheckList(mileageRows, valid);
    }
  }
}
