/**
 * The bulk entry of the budget creation dialog: pasted text is split into
 * lines, blank lines are dropped, and each line becomes a proposal by the
 * pattern `^(.+?)\s+([\d,.]+)\s*$` (a name, white space, an amount made of
 * digits, commas and dots, optional trailing white space). A line the
 * pattern rejects becomes a proposal with amount "0".
 */
module BulkParser {
  import opened Wrappers
  import opened Strings
  import opened Lists
  import opened Types
  import opened AutoCategorizer

  /** One proposal of the bulk preview. */
  datatype BulkItem = BulkItem(id: string, sourceName: string, category: string, amount: string)

  // ---------------------------------------------------------------- the pattern

  /** `[\d,.]`. */
  predicate IsAmountChar(c: char) {
    IsDigit(c) || c == ',' || c == '.'
  }

  /** The characters `.` refuses to match: the line terminators. */
  predicate IsLineTerminator(c: char) {
    c == '\n' || c == '\r' || c as int == 0x2028 || c as int == 0x2029
  }

  predicate NoTerminatorBefore(line: string, i: nat)
    requires i <= |line|
  {
    forall t :: 0 <= t < i ==> !IsLineTerminator(line[t])
  }

  /**
   * The pattern matches `line` with the name group `line[..i]`, the white
   * space `line[i..j]`, the amount group `line[j..k]` and the trailing white
   * space `line[k..]`.
   */
  predicate RegexMatch(line: string, i: nat, j: nat, k: nat)
  {
    1 <= i < j < k <= |line| &&
    NoTerminatorBefore(line, i) &&
    (forall t :: i <= t < j ==> IsJsSpace(line[t])) &&
    (forall t :: j <= t < k ==> IsAmountChar(line[t])) &&
    (forall t :: k <= t < |line| ==> IsJsSpace(line[t]))
  }

  /** Where the run of white space that ends at `e` starts. */
  function SpaceRunStart(line: string, e: nat): (w: nat)
    requires e <= |line|
    ensures w <= e
    ensures forall t :: w <= t < e ==> IsJsSpace(line[t])
    ensures w == 0 || !IsJsSpace(line[w - 1])
  {
    if e > 0 && IsJsSpace(line[e - 1]) then SpaceRunStart(line, e - 1) else e
  }

  /** Where the run of amount characters that ends at `e` starts. */
  function AmountRunStart(line: string, e: nat): (w: nat)
    requires e <= |line|
    ensures w <= e
    ensures forall t :: w <= t < e ==> IsAmountChar(line[t])
    ensures w == 0 || !IsAmountChar(line[w - 1])
  {
    if e > 0 && IsAmountChar(line[e - 1]) then AmountRunStart(line, e - 1) else e
  }

  /**
   * The match the pattern finds, located from the right: the trailing white
   * space, the amount run before it, the white space run before that; the lazy
   * name group then takes as little as it may, but at least one character.
   */
  function ScanMatch(line: string): Option<(nat, nat, nat)>
  {
    var k := SpaceRunStart(line, |line|);
    var j := AmountRunStart(line, k);
    var w := SpaceRunStart(line, j);
    var i := if w == 0 then 1 else w;
    if i < j && j < k && NoTerminatorBefore(line, i) then Some((i, j, k)) else None
  }

  /** No white space run ending at `e` starts before the one `SpaceRunStart` finds. */
  lemma {:induction false} SpaceRunStartLeast(line: string, e: nat, v: nat)
    requires v <= e <= |line|
    requires forall t :: v <= t < e ==> IsJsSpace(line[t])
    ensures SpaceRunStart(line, e) <= v
  {
    if v < e {
      SpaceRunStartLeast(line, e - 1, v);
    }
  }

  /** No amount run ending at `e` starts before the one `AmountRunStart` finds. */
  lemma {:induction false} AmountRunStartLeast(line: string, e: nat, v: nat)
    requires v <= e <= |line|
    requires forall t :: v <= t < e ==> IsAmountChar(line[t])
    ensures AmountRunStart(line, e) <= v
  {
    if v < e {
      AmountRunStartLeast(line, e - 1, v);
    }
  }

  /** What the scan reports is a match of the pattern. */
  lemma ScanMatchSound(line: string)
    ensures ScanMatch(line).Some? ==>
      var m := ScanMatch(line).value;
      RegexMatch(line, m.0, m.1, m.2)
  {
  }

  /**
   * Whenever the pattern matches at all, the scan reports the match the lazy
   * name group yields: the same amount group and trailing space, and a name
   * group no longer than any other match's. Together with `ScanMatchSound`,
   * the scan finds nothing exactly when the pattern does not match.
   */
  lemma ScanMatchLeftmost(line: string, i': nat, j': nat, k': nat)
    requires RegexMatch(line, i', j', k')
    ensures ScanMatch(line).Some?
    ensures var m := ScanMatch(line).value;
      m.0 <= i' && m.1 == j' && m.2 == k'
  {
    var k := SpaceRunStart(line, |line|);
    SpaceRunStartLeast(line, |line|, k');
    assert !IsJsSpace(line[k' - 1]);
    assert k == k';
    var j := AmountRunStart(line, k);
    AmountRunStartLeast(line, k, j');
    assert !IsAmountChar(line[j' - 1]);
    assert j == j';
    SpaceRunStartLeast(line, j, i');
  }

  // ---------------------------------------------------------------- one line

  predicate DigitsAndDots(s: string) {
    forall t :: 0 <= t < |s| ==> IsDigit(s[t]) || s[t] == '.'
  }

  /** `s.replace(/,/g, '')`. */
  function RemoveCommas(s: string): (r: string)
    ensures |r| <= |s|
    ensures forall t :: 0 <= t < |r| ==> r[t] != ','
  {
    if s == [] then []
    else if s[0] == ',' then RemoveCommas(s[1..])
    else [s[0]] + RemoveCommas(s[1..])
  }

  /** Text without commas is left as it is. */
  lemma {:induction false} RemoveCommasOfCommaFree(s: string)
    requires forall t :: 0 <= t < |s| ==> s[t] != ','
    ensures RemoveCommas(s) == s
  {
    if s != [] {
      RemoveCommasOfCommaFree(s[1..]);
    }
  }

  /** Dropping the commas from an amount run leaves digits and dots. */
  lemma {:induction false} RemoveCommasOfAmount(s: string)
    requires forall t :: 0 <= t < |s| ==> IsAmountChar(s[t])
    ensures DigitsAndDots(RemoveCommas(s))
  {
    if s != [] {
      RemoveCommasOfAmount(s[1..]);
      var rest := RemoveCommas(s[1..]);
      var r := RemoveCommas(s);
      if s[0] == ',' {
        assert r == rest;
      } else {
        assert r == [s[0]] + rest;
        assert IsDigit(r[0]) || r[0] == '.';
        assert forall t :: 1 <= t < |r| ==> r[t] == rest[t - 1];
      }
    }
  }

  /** The id of the proposal built from the `index`-th non-blank line. */
  function ItemId(index: nat): string
  {
    "item-" + NatToString(index)
  }

  /** Different lines get different ids. */
  lemma ItemIdInjective(a: nat, b: nat)
    ensures ItemId(a) == ItemId(b) <==> a == b
  {
    assert ItemId(a)[5..] == NatToString(a);
    assert ItemId(b)[5..] == NatToString(b);
    if ItemId(a) == ItemId(b) {
      NatToStringInjective(a, b);
    }
  }

  /** The name and the amount text read from one line. */
  function LineParts(line: string): (string, string)
  {
    match ScanMatch(line)
    case Some(m) => (Trim(line[..m.0]), RemoveCommas(line[m.1..m.2]))
    case None => (Trim(line), "0")
  }

  /** The proposal for the `index`-th non-blank line. */
  function ParseLine(line: string, index: nat, cats: seq<Category>): BulkItem
  {
    var parts := LineParts(line);
    BulkItem(ItemId(index), parts.0, AutoCategory(parts.0, cats), parts.1)
  }

  /** An amount is "0" or made only of digits and dots. */
  predicate AmountShape(amount: string) {
    amount == "0" || DigitsAndDots(amount)
  }

  /** The name read from a line is trimmed. */
  lemma LinePartsNameTrimmed(line: string)
    ensures Trim(LineParts(line).0) == LineParts(line).0
  {
    TrimOfTrimmed(LineParts(line).0);
  }

  /** The amount read from a line is "0" or made only of digits and dots. */
  lemma LinePartsAmountShape(line: string)
    ensures AmountShape(LineParts(line).1)
  {
    if ScanMatch(line).Some? {
      var m := ScanMatch(line).value;
      ScanMatchSound(line);
      var run := line[m.1..m.2];
      assert forall t :: 0 <= t < |run| ==> IsAmountChar(run[t]);
      RemoveCommasOfAmount(run);
      assert LineParts(line).1 == RemoveCommas(run);
    }
  }

  /** Where the pattern splits `name amount`: after the name and after the single space. */
  lemma ScanOfNameAndAmount(name: string, raw: string)
    requires name != [] && !IsJsSpace(name[|name| - 1])
    requires forall t :: 0 <= t < |name| ==> !IsLineTerminator(name[t])
    requires raw != [] && forall t :: 0 <= t < |raw| ==> IsAmountChar(raw[t])
    ensures ScanMatch(name + " " + raw) == Some((|name|, |name| + 1, |name| + 1 + |raw|))
    ensures (name + " " + raw)[..|name|] == name && (name + " " + raw)[|name| + 1..|name| + 1 + |raw|] == raw
  {
    var line := name + " " + raw;
    var n := |name|;
    assert line[..n] == name;
    assert line[n + 1..|line|] == raw;
    assert forall t :: 0 <= t < n ==> line[t] == name[t];
    assert line[n] == ' ' && line[n - 1] == name[n - 1];
    assert forall t :: n + 1 <= t < |line| ==> line[t] == raw[t - n - 1];
    assert RegexMatch(line, n, n + 1, |line|);
    ScanMatchLeftmost(line, n, n + 1, |line|);
    MatchStartsWithSpace(line);
  }

  /**
   * A trimmed, non-empty name without line breaks, one space and a run of
   * digits, commas and dots read back as that name and the run without its
   * commas.
   */
  lemma {:induction false} LinePartsOfNameAndAmount(name: string, raw: string)
    requires name != [] && Trim(name) == name
    requires forall t :: 0 <= t < |name| ==> !IsLineTerminator(name[t])
    requires raw != [] && forall t :: 0 <= t < |raw| ==> IsAmountChar(raw[t])
    ensures LineParts(name + " " + raw) == (name, RemoveCommas(raw))
  {
    var line := name + " " + raw;
    var m := (|name|, |name| + 1, |name| + 1 + |raw|);
    ScanOfNameAndAmount(name, raw);
    LinePartsOfMatch(line, m);
    assert line[..m.0] == name;
    assert line[m.1..m.2] == raw;
  }

  /** The parts of a line the pattern matches are read off the match. */
  lemma LinePartsOfMatch(line: string, m: (nat, nat, nat))
    requires ScanMatch(line) == Some(m)
    ensures m.0 <= m.1 <= m.2 <= |line|
    ensures LineParts(line) == (Trim(line[..m.0]), RemoveCommas(line[m.1..m.2]))
  {
    ScanMatchSound(line);
  }

  /**
   * Writing a proposal back as `name amount` and reading it again gives the
   * same name and amount, for a trimmed name without line breaks and an amount
   * of digits and dots.
   */
  lemma LinePartsRoundTrip(name: string, amount: string)
    requires name != [] && Trim(name) == name
    requires forall t :: 0 <= t < |name| ==> !IsLineTerminator(name[t])
    requires amount != [] && DigitsAndDots(amount)
    ensures LineParts(name + " " + amount) == (name, amount)
  {
    LinePartsOfNameAndAmount(name, amount);
    RemoveCommasOfCommaFree(amount);
  }

  /** Thousands separators are dropped: "Pepper 40,000" proposes 40000 for Pepper. */
  lemma PepperExample()
    ensures LineParts("Pepper 40,000") == ("Pepper", "40000")
  {
    TrimOfTrimmed("Pepper");
    assert "Pepper" + " " + "40,000" == "Pepper 40,000";
    LinePartsOfNameAndAmount("Pepper", "40,000");
    ThousandsExample();
  }

  lemma ThousandsExample()
    ensures RemoveCommas("40,000") == "40000"
  {
    assert RemoveCommas("000") == "000";
  }

  /**
   * The lazy name group lets a name end in digits: "Item 2 Pack 500" proposes
   * 500 for "Item 2 Pack".
   */
  lemma DigitsInNameExample()
    ensures LineParts("Item 2 Pack 500") == ("Item 2 Pack", "500")
  {
    TrimOfTrimmed("Item 2 Pack");
    assert "Item 2 Pack" + " " + "500" == "Item 2 Pack 500";
    LinePartsRoundTrip("Item 2 Pack", "500");
  }

  /** The pattern needs white space after the first character of the line. */
  lemma NoSpaceNoMatch(line: string)
    requires forall t :: 1 <= t < |line| ==> !IsJsSpace(line[t])
    ensures ScanMatch(line).None?
    ensures LineParts(line) == (Trim(line), "0")
  {
    ScanMatchSound(line);
    MatchStartsWithSpace(line);
  }

  lemma MatchStartsWithSpace(line: string)
    ensures ScanMatch(line).Some? ==>
      var m := ScanMatch(line).value;
      1 <= m.0 < |line| && IsJsSpace(line[m.0])
  {
    ScanMatchSound(line);
  }

  /**
   * The name group needs one character before the white space: " 500" does not
   * match, so it is proposed under the name "500" with amount "0".
   */
  lemma OneLeadingSpaceExample()
    ensures LineParts(" 500") == ("500", "0")
  {
    NoSpaceNoMatch(" 500");
    assert TrimStart(" 500") == TrimStart("500");
    TrimOfTrimmed("500");
  }

  /** "  500" matches, with the first space as its name, which trims to "". */
  lemma TwoLeadingSpacesExample()
    ensures LineParts("  500") == ("", "500")
  {
    var line := "  500";
    assert RegexMatch(line, 1, 2, 5);
    ScanMatchLeftmost(line, 1, 2, 5);
    MatchStartsWithSpace(line);
    LinePartsOfMatch(line, (1, 2, 5));
    assert line[..1] == " " && line[2..5] == "500";
    TrimEmptyIff(" ");
    RemoveCommasOfCommaFree("500");
  }

  // ---------------------------------------------------------------- the text

  /** The test `line.trim()` filters on: a line that is not white space only. */
  function NotBlank(line: string): bool
  {
    Trim(line) != ""
  }

  /**
   * `filter(line => line.trim())` on a list of lines: `Filter` with
   * `NotBlank`, written out first-order so that a dialog's state change
   * does not have to reason about the closure.
   */
  function DropBlank(lines: seq<string>): seq<string>
  {
    if lines == [] then []
    else if NotBlank(lines[0]) then [lines[0]] + DropBlank(lines[1..])
    else DropBlank(lines[1..])
  }

  lemma {:induction false} DropBlankIsFilter(lines: seq<string>)
    ensures DropBlank(lines) == Filter(lines, NotBlank)
  {
    if lines != [] {
      DropBlankIsFilter(lines[1..]);
    }
  }

  /** `text.split('\n').filter(line => line.trim())`. */
  function NonBlankLines(text: string): seq<string>
  {
    DropBlank(SplitLines(text))
  }

  /** The kept lines are neither white space only nor hold a line break. */
  lemma NonBlankLinesSpec(text: string)
    ensures forall t :: 0 <= t < |NonBlankLines(text)| ==>
      !AllSpace(NonBlankLines(text)[t]) && '\n' !in NonBlankLines(text)[t]
  {
    var lines := SplitLines(text);
    var r := NonBlankLines(text);
    DropBlankIsFilter(lines);
    forall t | 0 <= t < |r| ensures !AllSpace(r[t]) && '\n' !in r[t] {
      assert NotBlank(r[t]) && r[t] in lines;
      TrimEmptyIff(r[t]);
    }
  }

  /** `lines.map((line, index) => ...)`. */
  function ParseLines(lines: seq<string>, cats: seq<Category>): seq<BulkItem>
  {
    seq(|lines|, t requires 0 <= t < |lines| => ParseLine(lines[t], t, cats))
  }

  /** The proposals for a pasted text: one per non-blank line, in order. */
  function ParseBulkText(text: string, cats: seq<Category>): seq<BulkItem>
  {
    ParseLines(NonBlankLines(text), cats)
  }

  /** The ids of a proposal list, in order. */
  function Ids(items: seq<BulkItem>): seq<string>
  {
    seq(|items|, t requires 0 <= t < |items| => items[t].id)
  }

  predicate DistinctIds(items: seq<BulkItem>) {
    forall a, b :: 0 <= a < b < |items| ==> items[a].id != items[b].id
  }

  /** Proposals built from any list of lines are numbered `item-0`, `item-1`, ... and so have distinct ids. */
  lemma ParseLinesIds(lines: seq<string>, cats: seq<Category>)
    ensures var items := ParseLines(lines, cats);
      |items| == |lines| &&
      (forall t :: 0 <= t < |items| ==> items[t].id == ItemId(t)) &&
      DistinctIds(items)
  {
    var items := ParseLines(lines, cats);
    forall a, b | 0 <= a < b < |items| ensures items[a].id != items[b].id {
      ItemIdInjective(a, b);
    }
  }

  /**
   * One proposal per non-blank line, in the order of the lines, each the
   * parse of its line, with no two sharing an id.
   */
  lemma ParseBulkTextShape(text: string, cats: seq<Category>)
    ensures var items := ParseBulkText(text, cats);
      var lines := NonBlankLines(text);
      |items| == |lines| &&
      (forall t :: 0 <= t < |items| ==> items[t] == ParseLine(lines[t], t, cats)) &&
      DistinctIds(items)
  {
    ParseLinesIds(NonBlankLines(text), cats);
  }

  /** The proposals of a pasted text never share an id. */
  lemma ParseBulkTextIdsDistinct(text: string, cats: seq<Category>)
    ensures DistinctIds(ParseBulkText(text, cats))
  {
    ParseLinesIds(NonBlankLines(text), cats);
  }

  /** Only the blank lines are dropped: each line that is not white space only yields a proposal. */
  lemma ParseBulkTextKeepsLines(text: string, k: nat)
    requires k < |SplitLines(text)| && !AllSpace(SplitLines(text)[k])
    ensures SplitLines(text)[k] in NonBlankLines(text)
  {
    var line := SplitLines(text)[k];
    TrimEmptyIff(line);
    assert NotBlank(line);
    DropBlankIsFilter(SplitLines(text));
  }

  /** A text of white space and newlines only proposes nothing. */
  lemma BlankTextProposesNothing(text: string)
    requires AllSpace(text)
    ensures ParseBulkText(text, []) == []
  {
    var lines := SplitLines(text);
    BlankPieces(text);
    forall t | 0 <= t < |lines|
      ensures !NotBlank(lines[t])
    {
      TrimEmptyIff(lines[t]);
    }
    FilterNone(lines, NotBlank);
    DropBlankIsFilter(lines);
    assert NonBlankLines(text) == [];
  }

  /** Every piece of a white-space text is white space. */
  lemma {:induction false} BlankPieces(text: string)
    requires AllSpace(text)
    ensures forall t :: 0 <= t < |SplitLines(text)| ==> AllSpace(SplitLines(text)[t])
  {
    if text != [] {
      BlankPieces(text[1..]);
      var rest := SplitLines(text[1..]);
      if text[0] != '\n' {
        var r := SplitLines(text);
        assert r == [[text[0]] + rest[0]] + rest[1..];
        forall t | 0 <= t < |r| ensures AllSpace(r[t]) {
          if t > 0 {
            assert r[t] == rest[t];
          }
        }
      }
    }
  }
}
