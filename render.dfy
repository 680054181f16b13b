/** The product list that `generateInsights` embeds in its prompt: one line per product, joined by newlines. */
module Render {
  import opened Dict

  /** The character of a decimal digit. */
  function DigitChar(d: nat): char
    requires d < 10
  {
    ('0' as int + d) as char
  }

  /** Template-literal conversion `${qty}` of a non-negative integer: decimal digits, no leading zero. */
  function DecimalString(n: nat): (s: string)
    ensures |s| >= 1
    ensures forall i :: 0 <= i < |s| ==> '0' <= s[i] <= '9'
    ensures |s| > 1 ==> s[0] != '0'
  {
    if n < 10 then [DigitChar(n)] else DecimalString(n / 10) + [DigitChar(n % 10)]
  }

  /** The number a string of decimal digits denotes. */
  function DecimalValue(s: string): nat
    requires forall i :: 0 <= i < |s| ==> '0' <= s[i] <= '9'
  {
    if s == [] then 0 else DecimalValue(s[..|s| - 1]) * 10 + (s[|s| - 1] as int - '0' as int)
  }

  /** The digits written for a quantity denote that quantity. */
  lemma {:induction false} DecimalRoundTrip(n: nat)
    ensures DecimalValue(DecimalString(n)) == n
  {
    if n >= 10 {
      var s := DecimalString(n);
      assert s[..|s| - 1] == DecimalString(n / 10);
      DecimalRoundTrip(n / 10);
    }
  }

  /** One entry: `${name}: ${qty} pwliseis`. */
  function Line(name: string, qty: nat): (line: string)
    ensures |line| > |name| + 2 + 9
    ensures line[..|name| + 2] == name + ": "
    ensures line[|line| - 9..] == " pwliseis"
    ensures line[|name| + 2..|line| - 9] == DecimalString(qty)
    ensures DecimalValue(line[|name| + 2..|line| - 9]) == qty
  {
    var digits := DecimalString(qty);
    DecimalRoundTrip(qty);
    var line := name + ": " + digits + " pwliseis";
    assert line[|name| + 2..|line| - 9] == digits;
    line
  }

  /** `Object.entries(stats).map(...)` over the given keys, in order. */
  function EntryLines(stats: Dict<nat>, keys: seq<string>): (lines: seq<string>)
    ensures |lines| == |keys|
    ensures forall i :: 0 <= i < |keys| ==> lines[i] == Line(keys[i], Total(stats, keys[i]))
  {
    if keys == [] then []
    else EntryLines(stats, keys[..|keys| - 1]) + [Line(keys[|keys| - 1], Total(stats, keys[|keys| - 1]))]
  }

  /** `Array.prototype.join(sep)`: the parts with `sep` between neighbours, "" for no parts. */
  function Join(parts: seq<string>, sep: char): string
  {
    if |parts| == 0 then ""
    else if |parts| == 1 then parts[0]
    else Join(parts[..|parts| - 1], sep) + [sep] + parts[|parts| - 1]
  }

  /**
   * Reads a rendered text back into its lines: the pieces between the
   * occurrences of `sep` ("" gives [""]). index.js never splits; this
   * exists only to state that the product list has one line per entry.
   */
  function Split(s: string, sep: char): (parts: seq<string>)
    ensures |parts| >= 1
  {
    if s == [] then [""]
    else
      var init := Split(s[..|s| - 1], sep);
      if s[|s| - 1] == sep then init + [""]
      else init[..|init| - 1] + [init[|init| - 1] + [s[|s| - 1]]]
  }

  /** The product list: every entry's line, in key order, joined by '\n'. */
  function ProductList(stats: Dict<nat>): string
  {
    Join(EntryLines(stats, stats.keys), '\n')
  }

  // ---------------------------------------------------------------------------
  // Lemmas

  lemma {:induction false} SplitWithout(y: string, sep: char)
    requires sep !in y
    ensures Split(y, sep) == [y]
  {
    if y != [] {
      assert sep !in y[..|y| - 1];
      SplitWithout(y[..|y| - 1], sep);
      assert y[..|y| - 1] + [y[|y| - 1]] == y;
    }
  }

  lemma {:induction false} SplitAfter(x: string, y: string, sep: char)
    requires sep !in y
    ensures Split(x + [sep] + y, sep) == Split(x, sep) + [y]
    decreases |y|
  {
    var s := x + [sep] + y;
    if y == [] {
      assert s[..|s| - 1] == x;
    } else {
      var y' := y[..|y| - 1];
      assert s[..|s| - 1] == x + [sep] + y';
      assert sep !in y';
      SplitAfter(x, y', sep);
      assert y' + [y[|y| - 1]] == y;
    }
  }

  /** Splitting the joined parts at the separator gives the parts back, when no part contains it. */
  lemma {:induction false} SplitJoin(parts: seq<string>, sep: char)
    requires |parts| >= 1
    requires forall i :: 0 <= i < |parts| ==> sep !in parts[i]
    ensures Split(Join(parts, sep), sep) == parts
  {
    if |parts| == 1 {
      SplitWithout(parts[0], sep);
    } else {
      var front := parts[..|parts| - 1];
      var last := parts[|parts| - 1];
      assert forall i :: 0 <= i < |front| ==> front[i] == parts[i];
      SplitJoin(front, sep);
      assert Join(parts, sep) == Join(front, sep) + [sep] + last;
      SplitAfter(Join(front, sep), last, sep);
      assert parts == front + [last];
    }
  }

  lemma LineWithoutNewline(name: string, qty: nat)
    requires '\n' !in name
    ensures '\n' !in Line(name, qty) && |Line(name, qty)| > 0
  {
  }

  /**
   * The rendered list has exactly one line per entry, in key order, holding
   * that entry's name and quantity, when no product name contains a newline.
   */
  lemma RenderedLines(stats: Dict<nat>)
    requires stats.Valid() && |stats.keys| > 0
    requires forall i :: 0 <= i < |stats.keys| ==> '\n' !in stats.keys[i]
    ensures |Split(ProductList(stats), '\n')| == |stats.keys|
    ensures forall i :: 0 <= i < |stats.keys| ==>
              Split(ProductList(stats), '\n')[i] == stats.keys[i] + ": " + DecimalString(stats.values[stats.keys[i]]) + " pwliseis"
  {
    var lines := EntryLines(stats, stats.keys);
    forall i | 0 <= i < |lines| ensures '\n' !in lines[i] {
      LineWithoutNewline(stats.keys[i], Total(stats, stats.keys[i]));
      assert stats.keys[i] in stats.values;
    }
    SplitJoin(lines, '\n');
  }

  /** The product list is the empty string exactly when the dictionary has no entries. */
  lemma ProductListEmptyIff(stats: Dict<nat>)
    ensures ProductList(stats) == "" <==> |stats.keys| == 0
  {
  }
}
