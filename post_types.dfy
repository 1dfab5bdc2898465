/**
 * The vehicle list screen's columns (includes/class-post-types.php):
 * `add_custom_columns` inserts the image, plans and shortcode columns right
 * after the title, and the plans column shows how many subscription
 * lengths a vehicle has.
 *
 * A PHP array of columns is an ordered sequence of key/label pairs with
 * distinct keys; assigning to a key replaces its label in place when the
 * key is already there and appends it otherwise.
 */
module PostTypes {
  import opened Text
  import opened Php

  datatype Column = Column(key: string, heading: string)

  /** Some column of `cols` has key `k`. */
  predicate HasKey(cols: seq<Column>, k: string)
  {
    exists i :: 0 <= i < |cols| && cols[i].key == k
  }

  /** The keys of a PHP array are distinct. */
  predicate UniqueKeys(cols: seq<Column>)
  {
    forall i, j :: 0 <= i < j < |cols| ==> cols[i].key != cols[j].key
  }

  /** `$cols[$key] = $label`. */
  function Put(cols: seq<Column>, key: string, heading: string): (r: seq<Column>)
    ensures |r| == |cols| || |r| == |cols| + 1
  {
    if cols == [] then [Column(key, heading)]
    else if cols[0].key == key then [Column(key, heading)] + cols[1..]
    else [cols[0]] + Put(cols[1..], key, heading)
  }

  /** Assigning to a key that is not there appends it. */
  lemma {:induction false} PutAbsent(cols: seq<Column>, key: string, heading: string)
    requires !HasKey(cols, key)
    ensures Put(cols, key, heading) == cols + [Column(key, heading)]
  {
    if cols != [] {
      assert cols[0].key != key;
      assert !HasKey(cols[1..], key) by {
        forall i | 0 <= i < |cols[1..]| ensures cols[1..][i].key != key {
          assert cols[1..][i] == cols[i + 1];
        }
      }
      PutAbsent(cols[1..], key, heading);
      assert cols == [cols[0]] + cols[1..];
    }
  }

  /** The three columns the plugin adds, in order. */
  function Extra(): seq<Column>
  {
    [ Column("vehicle_image", "Vehicle Image"),
      Column("subscription_plans", "Subscription Plans"),
      Column("shortcode", "Shortcode") ]
  }

  /** One pass of the `foreach`: copy the column, and after `title` add the three. */
  function Step(acc: seq<Column>, col: Column): seq<Column>
  {
    var copied := Put(acc, col.key, col.heading);
    if col.key == "title" then
      Put(Put(Put(copied, Extra()[0].key, Extra()[0].heading), Extra()[1].key, Extra()[1].heading),
          Extra()[2].key, Extra()[2].heading)
    else copied
  }

  /** The columns built after the `foreach` has seen all of `cols`. */
  function Built(cols: seq<Column>): seq<Column>
  {
    if cols == [] then [] else Step(Built(cols[..|cols| - 1]), cols[|cols| - 1])
  }

  /** `add_custom_columns`. */
  method AddCustomColumns(columns: seq<Column>) returns (r: seq<Column>)
    ensures r == Built(columns)
  {
    r := [];
    for k := 0 to |columns|
      invariant r == Built(columns[..k])
    {
      var col := columns[k];
      assert columns[..k + 1][..k] == columns[..k];
      r := Put(r, col.key, col.heading);
      if col.key == "title" {
        r := Put(r, "vehicle_image", "Vehicle Image");
        r := Put(r, "subscription_plans", "Subscription Plans");
        r := Put(r, "shortcode", "Shortcode");
      }
    }
    assert columns[..|columns|] == columns;
  }

  /** The keys of a prefix of a list with distinct keys do not include a later key. */
  lemma {:induction false} LaterKeyAbsent(cols: seq<Column>, n: nat)
    requires UniqueKeys(cols) && n < |cols|
    ensures !HasKey(cols[..n], cols[n].key)
  {
    forall i | 0 <= i < n ensures cols[..n][i].key != cols[n].key {
      assert cols[..n][i] == cols[i];
    }
  }

  /** A key missing from a list is missing from its prefixes. */
  lemma {:induction false} PrefixKeys(cols: seq<Column>, m: nat, k: string)
    requires m <= |cols| && !HasKey(cols, k)
    ensures !HasKey(cols[..m], k)
  {
    forall i | 0 <= i < m ensures cols[..m][i].key != k {
      assert cols[..m][i] == cols[i];
    }
  }

  /** The prefixes of a list with distinct keys have distinct keys. */
  lemma {:induction false} PrefixUnique(cols: seq<Column>, m: nat)
    requires m <= |cols| && UniqueKeys(cols)
    ensures UniqueKeys(cols[..m])
  {
    forall i, j | 0 <= i < j < m ensures cols[..m][i].key != cols[..m][j].key {
      assert cols[..m][i] == cols[i] && cols[..m][j] == cols[j];
    }
  }

  /** A key occurs in `a + b` when it occurs in neither part. */
  lemma {:induction false} HasKeyAppend(a: seq<Column>, b: seq<Column>, k: string)
    ensures HasKey(a + b, k) <==> HasKey(a, k) || HasKey(b, k)
  {
    if HasKey(a + b, k) {
      var i :| 0 <= i < |a + b| && (a + b)[i].key == k;
      if i >= |a| {
        assert b[i - |a|] == (a + b)[i];
      }
    }
    if HasKey(b, k) {
      var i :| 0 <= i < |b| && b[i].key == k;
      assert (a + b)[|a| + i] == b[i];
    }
    if HasKey(a, k) {
      var i :| 0 <= i < |a| && a[i].key == k;
      assert (a + b)[i] == a[i];
    }
  }

  /** Without a `title` column, the columns come back unchanged. */
  lemma {:induction false} NoTitleUnchanged(cols: seq<Column>)
    requires UniqueKeys(cols)
    requires !HasKey(cols, "title")
    ensures Built(cols) == cols
    decreases |cols|
  {
    if cols != [] {
      var n := |cols| - 1;
      var init := cols[..n];
      PrefixUnique(cols, n);
      PrefixKeys(cols, n, "title");
      NoTitleUnchanged(init);
      LaterKeyAbsent(cols, n);
      PutAbsent(init, cols[n].key, cols[n].heading);
      assert cols[n].key != "title";
      assert Built(cols) == Step(init, cols[n]) == init + [cols[n]];
      assert cols == init + [cols[n]];
    }
  }

  /** None of the three added keys is among `cols`. */
  predicate NoExtraKeys(cols: seq<Column>)
  {
    !HasKey(cols, "vehicle_image") && !HasKey(cols, "subscription_plans") && !HasKey(cols, "shortcode")
  }

  /** The columns after the `foreach` has seen the first `n`, when `title` is at `t`. */
  function Expected(cols: seq<Column>, t: nat, n: nat): seq<Column>
    requires t < |cols| && n <= |cols|
  {
    if n <= t then cols[..n] else cols[..t + 1] + Extra() + cols[t + 1..n]
  }

  /** Appending the three added columns to a list that has none of their keys. */
  lemma {:induction false} AddExtra(acc: seq<Column>)
    requires NoExtraKeys(acc)
    ensures Put(Put(Put(acc, Extra()[0].key, Extra()[0].heading), Extra()[1].key, Extra()[1].heading),
                Extra()[2].key, Extra()[2].heading) == acc + Extra()
  {
    var e := Extra();
    PutAbsent(acc, e[0].key, e[0].heading);
    var a1 := acc + [e[0]];
    HasKeyAppend(acc, [e[0]], e[1].key);
    assert !HasKey([e[0]], e[1].key);
    PutAbsent(a1, e[1].key, e[1].heading);
    var a2 := a1 + [e[1]];
    HasKeyAppend(acc, [e[0]], e[2].key);
    HasKeyAppend(a1, [e[1]], e[2].key);
    assert !HasKey([e[0]], e[2].key) && !HasKey([e[1]], e[2].key);
    PutAbsent(a2, e[2].key, e[2].heading);
    assert a2 + [e[2]] == acc + e;
  }

  /** A list with distinct keys, none of them added ones, and `title` at `t`. */
  predicate TitledColumns(cols: seq<Column>, t: nat)
  {
    UniqueKeys(cols) && NoExtraKeys(cols) && t < |cols| && cols[t].key == "title"
  }

  /** The built prefix never holds the next column's key. */
  lemma {:induction false} NextKeyAbsent(cols: seq<Column>, t: nat, n: nat)
    requires TitledColumns(cols, t) && n < |cols|
    ensures !HasKey(Expected(cols, t, n), cols[n].key)
  {
    LaterKeyAbsent(cols, n);
    if n > t {
      var e := Extra();
      assert cols[..n] == cols[..t + 1] + cols[t + 1..n];
      HasKeyAppend(cols[..t + 1], cols[t + 1..n], cols[n].key);
      HasKeyAppend(cols[..t + 1], e, cols[n].key);
      HasKeyAppend(cols[..t + 1] + e, cols[t + 1..n], cols[n].key);
      assert !HasKey(e, cols[n].key) by {
        forall i | 0 <= i < 3 ensures e[i].key != cols[n].key {
          assert e[i].key == "vehicle_image" || e[i].key == "subscription_plans" || e[i].key == "shortcode";
          assert cols[n].key != "vehicle_image" && cols[n].key != "subscription_plans" && cols[n].key != "shortcode";
        }
      }
    }
  }

  /** The pass over `title` appends it and the three added columns. */
  lemma {:induction false} TitleStep(cols: seq<Column>, t: nat)
    requires TitledColumns(cols, t)
    ensures Step(Expected(cols, t, t), cols[t]) == Expected(cols, t, t + 1)
  {
    var col := cols[t];
    LaterKeyAbsent(cols, t);
    PutAbsent(cols[..t], col.key, col.heading);
    assert cols[..t] + [col] == cols[..t + 1];
    PrefixKeys(cols, t + 1, "vehicle_image");
    PrefixKeys(cols, t + 1, "subscription_plans");
    PrefixKeys(cols, t + 1, "shortcode");
    AddExtra(cols[..t + 1]);
    assert cols[t + 1..t + 1] == [];
  }

  /** A pass over a column before `title` appends it. */
  lemma {:induction false} StepBeforeTitle(cols: seq<Column>, t: nat, n: nat)
    requires TitledColumns(cols, t) && n < t
    ensures Step(Expected(cols, t, n), cols[n]) == Expected(cols, t, n + 1)
  {
    assert cols[n].key != "title";
    NextKeyAbsent(cols, t, n);
    PutAbsent(cols[..n], cols[n].key, cols[n].heading);
    assert cols[..n] + [cols[n]] == cols[..n + 1];
  }

  /** A pass over a column after `title` appends it. */
  lemma {:induction false} StepAfterTitle(cols: seq<Column>, t: nat, n: nat)
    requires TitledColumns(cols, t) && t < n < |cols|
    ensures Step(Expected(cols, t, n), cols[n]) == Expected(cols, t, n + 1)
  {
    var acc := Expected(cols, t, n);
    assert cols[n].key != "title";
    NextKeyAbsent(cols, t, n);
    PutAbsent(acc, cols[n].key, cols[n].heading);
    ExpectedSnoc(cols, t, n);
  }

  /** Past `title`, the expected columns grow by the next column. */
  lemma {:induction false} ExpectedSnoc(cols: seq<Column>, t: nat, n: nat)
    requires t < n < |cols|
    ensures Expected(cols, t, n + 1) == Expected(cols, t, n) + [cols[n]]
  {
    var head := cols[..t + 1] + Extra();
    assert cols[t + 1..n + 1] == cols[t + 1..n] + [cols[n]];
    AppendAssoc(head, cols[t + 1..n], [cols[n]]);
  }

  lemma {:induction false} AppendAssoc(a: seq<Column>, b: seq<Column>, c: seq<Column>)
    ensures a + (b + c) == (a + b) + c
  {
  }

  lemma {:induction false} BuiltSnoc(cols: seq<Column>, n: nat)
    requires n < |cols|
    ensures Built(cols[..n + 1]) == Step(Built(cols[..n]), cols[n])
  {
    assert cols[..n + 1][..n] == cols[..n];
  }

  /** One pass of the loop keeps the built columns in the expected form. */
  lemma {:induction false} BuiltStep(cols: seq<Column>, t: nat, n: nat)
    requires TitledColumns(cols, t) && n < |cols|
    requires Built(cols[..n]) == Expected(cols, t, n)
    ensures Built(cols[..n + 1]) == Expected(cols, t, n + 1)
  {
    BuiltSnoc(cols, n);
    if n == t {
      TitleStep(cols, t);
    } else if n < t {
      StepBeforeTitle(cols, t, n);
    } else {
      StepAfterTitle(cols, t, n);
    }
  }

  /**
   * With `title` present and none of the added keys already there, the
   * output is the input with the image, plans and shortcode columns
   * inserted, in that order, right after `title`: every input column keeps
   * its label and relative order, and there are exactly three more.
   */
  lemma {:induction false} ColumnsAfterTitle(cols: seq<Column>, t: nat)
    requires TitledColumns(cols, t)
    ensures Built(cols) == cols[..t + 1] + Extra() + cols[t + 1..]
    ensures |Built(cols)| == |cols| + 3
  {
    var n := 0;
    while n < |cols|
      invariant n <= |cols|
      invariant Built(cols[..n]) == Expected(cols, t, n)
    {
      BuiltStep(cols, t, n);
      n := n + 1;
    }
    assert cols[..|cols|] == cols;
  }

  // -----------------------------------------------------------------------
  // The plans column

  /** The text for "no plans" as the source file's bytes spell it: an em dash saved twice as UTF-8. */
  const DashAsWritten := "\U{E2}\U{20AC}\U{201D}"

  /** The em dash the column evidently means. */
  const Dash := "\U{2014}"

  /** `custom_column_content` for the plans column, as written. */
  function PlansTextAsWritten(stored: seq<Row>): (s: string)
  {
    if stored != [] then IntToString(|stored|) + (if |stored| == 1 then " plan" else " plans")
    else DashAsWritten
  }

  /** With no stored plans the column shows three stray characters, not a dash. */
  lemma {:induction false} PlansDashMojibake()
    ensures PlansTextAsWritten([]) != Dash
    ensures |PlansTextAsWritten([])| == 3 && PlansTextAsWritten([])[0] == '\U{E2}'
  {
  }

  /** `custom_column_content` for the plans column, with the dash as one character. */
  function PlansText(stored: seq<Row>): (s: string)
  {
    if stored != [] then IntToString(|stored|) + (if |stored| == 1 then " plan" else " plans")
    else Dash
  }

  /**
   * The plans column reads back as the number of stored subscription
   * lengths, with "plan" for exactly one, and is a single em dash when
   * there are none; it differs from the as-written text only there.
   */
  lemma {:induction false} PlansTextCounts(stored: seq<Row>)
    ensures stored == [] ==> PlansText(stored) == Dash && |PlansText(stored)| == 1
    ensures stored != [] ==> IntVal(PlansText(stored)) == |stored|
    ensures |stored| == 1 ==> PlansText(stored) == "1 plan"
    ensures stored != [] ==> PlansText(stored) == PlansTextAsWritten(stored)
  {
    if stored != [] {
      var digits := IntToString(|stored|);
      var suffix := if |stored| == 1 then " plan" else " plans";
      LeadingDigitsOfDigits(digits);
      LeadingDigitsStop(digits, suffix);
      IntValRoundTrip(|stored|);
      assert PlansText(stored) == digits + suffix;
      assert digits[0] != '-' && digits[0] != '+';
      assert (digits + suffix)[0] == digits[0];
      assert 1 == |[stored[0]]|;
      if |stored| == 1 {
        assert digits == "1";
      }
    }
  }

  /** The leading digits of digits followed by a non-digit are those digits. */
  lemma {:induction false} LeadingDigitsStop(digits: string, suffix: string)
    requires AllDigits(digits) && suffix != [] && !IsDigit(suffix[0])
    ensures LeadingDigits(digits + suffix) == digits
    decreases |digits|
  {
    if digits == [] {
      assert (digits + suffix)[0] == suffix[0];
    } else {
      assert (digits + suffix)[1..] == digits[1..] + suffix;
      LeadingDigitsStop(digits[1..], suffix);
    }
  }
}
