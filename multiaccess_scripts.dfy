/** The selection logic of the multiple-access scripts: the 33-22-3 script
    picks its postmap from the number of outputs of each inequality and its
    input count from the number of columns; the bisender and 33-23-2 scripts
    pick parity or logical-and postmaps by a tag and name the inequality they
    run in the output file. */
module MultiaccessScripts {
  import opened OptDicts
  import opened Matrices
  import opened Postmaps

  // ---------------------------------------------------------------------
  // 33-22-3

  /** `int(np.sqrt(c))`: the largest `m` with `m * m <= c`. */
  function ISqrt(c: nat): (m: nat)
    ensures m * m <= c < (m + 1) * (m + 1)
  {
    if c == 0 then 0
    else
      var r := ISqrt(c - 1);
      if (r + 1) * (r + 1) <= c then r + 1 else r
  }

  /** Squaring is monotone on naturals. */
  lemma SquareMono(x: nat, y: nat)
    requires x <= y
    ensures x * x <= y * y
  {
    MulMono(x, y, x);
    MulMono(x, y, y);
    assert y * x == x * y;
  }

  /** A square column count `m * m` gives `num_in = m`: each of the two senders
      has `m` inputs. */
  lemma NumInOfSquare(m: nat)
    ensures ISqrt(m * m) == m
  {
    var k := ISqrt(m * m);
    if k < m {
      SquareMono(k + 1, m);
    } else if k > m {
      SquareMono(m + 1, k);
    }
  }

  /** The `if`/`elif` chain on `num_out`: four outputs take `np.eye(4)`, three
      and two take the merging literals; any other count leaves `postmap` as
      the previous iteration bound it, or unbound (`NameError`) on the first. */
  function SelectPostmap(numOut: nat, previous: Option<IntMatrix>): (p: Outcome<IntMatrix>)
  {
    if numOut == 4 then Ok(Identity(4))
    else if numOut == 3 then Ok(MergeMiddle)
    else if numOut == 2 then Ok(MergeLastThree)
    else if previous.Some? then Ok(previous.value)
    else Raised
  }

  /** For two to four outputs the selected postmap is a column-stochastic
      postmap over four outcomes with exactly `num_out` rows, the row count of
      the game; any other count selects nothing new. */
  lemma SelectPostmapSpec(numOut: nat, previous: Option<IntMatrix>)
    ensures 2 <= numOut <= 4 ==>
      SelectPostmap(numOut, previous).Ok? && ColumnStochastic(SelectPostmap(numOut, previous).value, numOut, 4)
    ensures !(2 <= numOut <= 4) ==>
      (SelectPostmap(numOut, previous).Raised? <==> previous.None?)
      && (previous.Some? ==> SelectPostmap(numOut, previous).value == previous.value)
  {
    if numOut == 4 {
      IdentityOneHot(4);
    } else if numOut == 3 {
      MergeMiddleOutcomes();
    } else if numOut == 2 {
      MergeLastThreeOutcomes();
    }
  }

  // ---------------------------------------------------------------------
  // Bisender and 33-23-2 tags

  /** `parity_postmap if postmap_tag == "xor_" else and_postmap`, and the
      three-bit pair of the 33-23-2 script. */
  function PostmapForTag(tag: string): IntMatrix
  {
    if tag == "xor_" then ParityPostmap2 else AndPostmap2
  }

  function Postmap3ForTag(tag: string): IntMatrix
  {
    if tag == "xor_" then ParityPostmap3 else AndPostmap3
  }

  /** Tag `"xor_"` selects the parity maps and every other tag the and maps;
      both selections are column-stochastic two-row postmaps over four and
      eight outcomes. */
  lemma PostmapForTagSpec(tag: string)
    ensures tag == "xor_" ==>
      PostmapForTag(tag) == FromAssignment(2, ParityAssignment(2))
      && Postmap3ForTag(tag) == FromAssignment(2, ParityAssignment(3))
    ensures tag != "xor_" ==>
      PostmapForTag(tag) == FromAssignment(2, AndAssignment(2))
      && Postmap3ForTag(tag) == FromAssignment(2, AndAssignment(3))
    ensures ColumnStochastic(PostmapForTag(tag), 2, 4) && ColumnStochastic(Postmap3ForTag(tag), 2, 8)
  {
    ParityLiterals();
    AndLiterals();
  }

  /** The character of a decimal digit. */
  function DigitChar(d: nat): char
    requires d < 10
  {
    "0123456789"[d]
  }

  /** The value of a decimal digit character. */
  function DigitValue(c: char): nat
  {
    if '0' <= c <= '9' then (c as int - '0' as int) as nat else 0
  }

  /** `str(n)`: the decimal digits of `n`, most significant first. */
  function Decimal(n: nat): (s: string)
    ensures |s| > 0
    ensures forall k :: 0 <= k < |s| ==> '0' <= s[k] <= '9'
  {
    if n < 10 then [DigitChar(n)] else Decimal(n / 10) + [DigitChar(n % 10)]
  }

  /** `int(s)` for a string of decimal digits. */
  function DecimalValue(s: string): nat
  {
    if |s| == 0 then 0 else 10 * DecimalValue(s[..|s| - 1]) + DigitValue(s[|s| - 1])
  }

  /** Reading `str(n)` back gives `n`. */
  lemma {:induction false} DecimalRoundTrip(n: nat)
    ensures DecimalValue(Decimal(n)) == n
  {
    var s := Decimal(n);
    if n < 10 {
      assert DigitValue(DigitChar(n)) == n;
    } else {
      DecimalRoundTrip(n / 10);
      assert s[..|s| - 1] == Decimal(n / 10);
      assert DigitValue(DigitChar(n % 10)) == n % 10;
    }
  }

  /** `"I_fp_" if i == 0 else "I_" + str(i) + "_"`. */
  function InequalityTag(i: nat): string
  {
    if i == 0 then "I_fp_" else "I_" + Decimal(i) + "_"
  }

  /** The third character of a tag is `f` exactly for the fingerprinting
      inequality; every other tag has a digit there. */
  lemma TagThirdChar(i: nat)
    ensures |InequalityTag(i)| > 2
    ensures InequalityTag(i)[2] == 'f' <==> i == 0
  {
    if i != 0 {
      assert InequalityTag(i)[2] == Decimal(i)[0];
    }
  }

  /** Different inequalities get different tags, so no two runs of the loop
      write under the same name. */
  lemma InequalityTagInjective(i: nat, j: nat)
    requires InequalityTag(i) == InequalityTag(j)
    ensures i == j
  {
    var t := InequalityTag(i);
    TagThirdChar(i);
    TagThirdChar(j);
    if i != 0 && j != 0 {
      assert Decimal(i) == t[2..|t| - 1] == Decimal(j);
      DecimalRoundTrip(i);
      DecimalRoundTrip(j);
    }
  }
}
