/** Incremented names: the next free version of a Model or Dataset name. */
module Versions {
  import opened Basics

  const MAX_INT: int := 0x7FFF_FFFF_FFFF_FFFF

  /** 64-bit wrap-around of a sum that is at most one too large. */
  function Wrap(n: int): int {
    if n > MAX_INT then n - 0x1_0000_0000_0000_0000 else n
  }

  /******* Decimals *******/

  predicate Digits(s: string) {
    forall i :: 0 <= i < |s| ==> Digit(s[i])
  }

  function Value(s: string): nat
    requires Digits(s)
  {
    if s == "" then 0 else 10 * Value(s[..|s| - 1]) + (s[|s| - 1] as int - '0' as int)
  }

  function PrintNat(n: nat): (s: string)
    ensures s != "" && Digits(s)
  {
    if n < 10 then [('0' as int + n) as char] else PrintNat(n / 10) + [('0' as int + n % 10) as char]
  }

  function PrintInt(n: int): string {
    if n >= 0 then PrintNat(n) else "-" + PrintNat(-n)
  }

  lemma {:induction false} ValueOfPrint(n: nat)
    ensures Value(PrintNat(n)) == n
  {
    if n < 10 {
      assert PrintNat(n)[..0] == "";
    } else {
      ValueOfPrint(n / 10);
      var s := PrintNat(n);
      assert s[..|s| - 1] == PrintNat(n / 10);
    }
  }

  /******* The pattern *******/

  /** Object names: in a pattern only the dot is special, it stands for any character but a newline. */
  predicate NameOk(name: string) {
    forall i :: 0 <= i < |name| ==> 'a' <= name[i] <= 'z' || Digit(name[i]) || name[i] == '.' || name[i] == '-'
  }

  predicate CharMatches(pattern: char, c: char) {
    if pattern == '.' then c != '\n' else c == pattern
  }

  /** The pattern, the name followed by a hyphen and at least one digit, matches `item` at `p`. */
  predicate MatchesAt(name: string, item: string, p: nat) {
    p + |name| + 2 <= |item|
    && (forall i :: 0 <= i < |name| ==> CharMatches(name[i], item[p + i]))
    && item[p + |name|] == '-' && Digit(item[p + |name| + 1])
  }

  /** The match is not anchored; the leftmost one wins. */
  function Leftmost(name: string, item: string, from: nat): (p: Option<nat>)
    requires from <= |item|
    ensures p.Some? ==> from <= p.value < |item| && MatchesAt(name, item, p.value)
    ensures forall q :: from <= q < (if p.Some? then p.value else |item|) ==> !MatchesAt(name, item, q)
    decreases |item| - from
  {
    if from == |item| then None
    else if MatchesAt(name, item, from) then Some(from)
    else Leftmost(name, item, from + 1)
  }

  /** Repetition is greedy. */
  function DigitRun(s: string): (r: string)
    ensures Digits(r) && r <= s && (|r| < |s| ==> !Digit(s[|r|]))
  {
    if s == "" || !Digit(s[0]) then "" else [s[0]] + DigitRun(s[1..])
  }

  function Captured(name: string, item: string): (digits: Option<string>)
    ensures digits.Some? ==> digits.value != "" && Digits(digits.value)
  {
    match Leftmost(name, item, 0)
    case None => None
    case Some(p) => Some(DigitRun(item[p + |name| + 1..]))
  }

  /** The version an item stands for; items that do not match stand for none. */
  function VersionOf(name: string, item: string): Option<nat> {
    match Captured(name, item)
    case None => None
    case Some(digits) => Some(Value(digits))
  }

  lemma {:induction false} RunOfDigits(s: string)
    requires Digits(s)
    ensures DigitRun(s) == s
  {
    if s != "" {
      RunOfDigits(s[1..]);
    }
  }

  /** An item that is the name with a version stands for that version, whatever else in it the pattern could match. */
  lemma VersionOfIncrement(name: string, n: nat)
    requires NameOk(name)
    ensures VersionOf(name, name + "-" + PrintNat(n)) == Some(n)
  {
    var item := name + "-" + PrintNat(n);
    assert MatchesAt(name, item, 0);
    assert item[|name| + 1..] == PrintNat(n);
    RunOfDigits(PrintNat(n));
    ValueOfPrint(n);
  }

  /** `text` is the name, but for its dots, which stand for any character that ends no line. */
  predicate Resembles(name: string, text: string) {
    |text| == |name| && forall i :: 0 <= i < |name| ==> text[i] == name[i] || (name[i] == '.' && text[i] != '\n')
  }

  /** An item that stands for a version consists of anything, a text that resembles the name, a hyphen, all the digits
      that follow it, and anything again; the version is these digits. */
  lemma VersionIs(name: string, item: string) returns (before: string, text: string, digits: string, after: string)
    requires VersionOf(name, item).Some?
    ensures item == before + text + "-" + digits + after && Resembles(name, text)
    ensures digits != "" && Digits(digits) && (after != "" ==> !Digit(after[0]))
    ensures VersionOf(name, item) == Some(Value(digits))
  {
    hide Leftmost, DigitRun, Value;
    var p := Leftmost(name, item, 0).value;
    var k := p + |name| + 1;
    digits := DigitRun(item[k..]);
    before, text, after := item[..p], item[p..k - 1], item[k + |digits|..];
    assert item[k..] == digits + after;
    assert item == before + text + [item[k - 1]] + item[k..];
  }

  /** Conversely, every such item stands for a version, and where it begins with the name, for the one after it. */
  lemma VersionFound(name: string, before: string, text: string, digits: string, after: string)
    requires NameOk(name) && Resembles(name, text)
    requires digits != "" && Digits(digits) && (after != "" ==> !Digit(after[0]))
    ensures VersionOf(name, before + text + "-" + digits + after).Some?
    ensures VersionOf(name, text + "-" + digits + after) == Some(Value(digits))
  {
    hide Value;
    var item, item' := before + text + "-" + digits + after, text + "-" + digits + after;
    assert forall i :: 0 <= i < |name| ==> item[|before| + i] == text[i];
    assert MatchesAt(name, item, |before|);
    assert MatchesAt(name, item', 0);
    assert item'[|name| + 1..] == digits + after;
    RunStops(digits, after);
  }

  lemma {:induction false} RunStops(digits: string, after: string)
    requires Digits(digits) && (after != "" ==> !Digit(after[0]))
    ensures DigitRun(digits + after) == digits
  {
    if digits == "" {
      assert digits + after == after;
    } else {
      assert (digits + after)[1..] == digits[1..] + after;
      RunStops(digits[1..], after);
    }
  }

  /******* The next version *******/

  function Highest(name: string, items: seq<string>): nat {
    if items == [] then 0
    else
      var v := VersionOf(name, items[|items| - 1]);
      var rest := Highest(name, items[..|items| - 1]);
      if v.Some? && v.value > rest then v.value else rest
  }

  ghost predicate TooLarge(name: string, items: seq<string>) {
    exists i :: 0 <= i < |items| && VersionOf(name, items[i]).Some? && VersionOf(name, items[i]).value > MAX_INT
  }

  lemma {:induction false} HighestIsMaximum(name: string, items: seq<string>)
    ensures forall i :: 0 <= i < |items| && VersionOf(name, items[i]).Some? ==>
              VersionOf(name, items[i]).value <= Highest(name, items)
    ensures Highest(name, items) == 0
            || exists i :: 0 <= i < |items| && VersionOf(name, items[i]) == Some(Highest(name, items))
  {
    if items != [] {
      var front, last := items[..|items| - 1], items[|items| - 1];
      HighestIsMaximum(name, front);
      assert forall i :: 0 <= i < |front| ==> front[i] == items[i];
      if Highest(name, items) == Highest(name, front) && Highest(name, front) != 0 {
        var i :| 0 <= i < |front| && VersionOf(name, front[i]) == Some(Highest(name, front));
        assert VersionOf(name, items[i]) == Some(Highest(name, items));
      } else if Highest(name, items) != 0 {
        assert VersionOf(name, items[|items| - 1]) == Some(Highest(name, items));
      }
    }
  }

  /** One loop for Models and for Datasets. A matched version beyond the integers is an error. */
  method NextVersion(items: seq<string>, name: string) returns (r: Result<int>)
    requires NameOk(name)
    ensures r.Error? <==> TooLarge(name, items)
    ensures r.Ok? ==> Highest(name, items) <= MAX_INT && r.value == Wrap(Highest(name, items) + 1)
  {
    var highest := 0;
    for i := 0 to |items|
      invariant highest == Highest(name, items[..i]) && 0 <= highest <= MAX_INT
      invariant !TooLarge(name, items[..i])
    {
      assert items[..i + 1][..i] == items[..i];
      var digits := Captured(name, items[i]);
      if digits.None? {
        continue;
      }
      var v := Value(digits.value);
      if v > MAX_INT {
        assert VersionOf(name, items[i]).Some?;
        return Error("version label to int: value out of range");
      }
      if v > highest {
        highest := v;
      }
    }
    assert items[..|items|] == items;
    return Ok(Wrap(highest + 1));
  }

  lemma FreshBelow(items: seq<string>, name: string)
    requires NameOk(name)
    ensures name + "-" + PrintNat(Highest(name, items) + 1) !in items
  {
    hide Highest, VersionOf, PrintNat;
    VersionOfIncrement(name, Highest(name, items) + 1);
    HighestIsMaximum(name, items);
  }

  /** The name made of the next version is new exactly when the highest version leaves room for one more, or the
      wrapped-around name happens to be free. */
  lemma FreshName(items: seq<string>, name: string)
    requires NameOk(name) && Highest(name, items) <= MAX_INT
    ensures var next := Wrap(Highest(name, items) + 1);
            name + "-" + PrintInt(next) !in items
            <==> (Highest(name, items) < MAX_INT || name + "--" + PrintNat(MAX_INT + 1) !in items)
  {
    hide Highest, PrintNat;
    if Highest(name, items) < MAX_INT {
      FreshBelow(items, name);
    } else {
      assert name + "-" + ("-" + PrintNat(MAX_INT + 1)) == name + "--" + PrintNat(MAX_INT + 1);
    }
  }
}
