/** Go's string helpers the agent leans on: whitespace trimming, decimal step
    numbers and the case-insensitive list cleaner of memory.go. */
module Text {

  /** unicode.IsSpace. */
  predicate IsSpace(c: char) {
    var n := c as int;
    || 9 <= n <= 13 || n == 32 || n == 0x85 || n == 0xA0 || n == 0x1680
    || 0x2000 <= n <= 0x200A || n == 0x2028 || n == 0x2029 || n == 0x202F
    || n == 0x205F || n == 0x3000
  }

  function TrimLeft(s: string): string {
    if s != [] && IsSpace(s[0]) then TrimLeft(s[1..]) else s
  }

  function TrimRight(s: string): string {
    if s != [] && IsSpace(s[|s| - 1]) then TrimRight(s[..|s| - 1]) else s
  }

  /** strings.TrimSpace. */
  function Trim(s: string): string {
    TrimRight(TrimLeft(s))
  }

  /** Blank, tab, the line and page breaks and the Unicode blanks are whitespace, nothing else. */
  lemma Spaces(c: char)
    ensures IsSpace(c) <==>
            c in "\t\n\U{000B}\U{000C}\r \U{0085}\U{00A0}\U{1680}\U{2000}\U{2001}\U{2002}\U{2003}\U{2004}\U{2005}"
            || c in "\U{2006}\U{2007}\U{2008}\U{2009}\U{200A}\U{2028}\U{2029}\U{202F}\U{205F}\U{3000}"
  {
  }

  /** No whitespace at either end. */
  predicate Trimmed(s: string) {
    s != [] ==> !IsSpace(s[0]) && !IsSpace(s[|s| - 1])
  }

  /** The characters of `s` that are not whitespace. */
  function Ink(s: string): string {
    if s == [] then []
    else Ink(s[..|s| - 1]) + if IsSpace(s[|s| - 1]) then [] else [s[|s| - 1]]
  }

  lemma {:induction false} InkConcat(a: string, b: string)
    ensures Ink(a + b) == Ink(a) + Ink(b)
    decreases |b|
  {
    if b == [] {
      assert a + b == a;
    } else {
      assert (a + b)[..|a + b| - 1] == a + b[..|b| - 1];
      InkConcat(a, b[..|b| - 1]);
    }
  }

  lemma {:induction false} TrimLeftLaws(s: string)
    ensures Ink(TrimLeft(s)) == Ink(s)
    ensures TrimLeft(s) != [] ==> !IsSpace(TrimLeft(s)[0])
    ensures TrimLeft(s) == [] || TrimLeft(s)[|TrimLeft(s)| - 1] == s[|s| - 1]
  {
    if s != [] && IsSpace(s[0]) {
      TrimLeftLaws(s[1..]);
      assert s == [s[0]] + s[1..];
      InkConcat([s[0]], s[1..]);
      assert Ink([s[0]]) == [];
    }
  }

  lemma {:induction false} TrimRightLaws(s: string)
    ensures Ink(TrimRight(s)) == Ink(s)
    ensures TrimRight(s) != [] ==> !IsSpace(TrimRight(s)[|TrimRight(s)| - 1])
    ensures TrimRight(s) == [] || TrimRight(s)[0] == s[0]
  {
    if s != [] && IsSpace(s[|s| - 1]) {
      TrimRightLaws(s[..|s| - 1]);
    }
  }

  /** Trimming drops only whitespace, and always enough of it. */
  lemma TrimLaws(s: string)
    ensures Trimmed(Trim(s))
    ensures Ink(Trim(s)) == Ink(s)
    ensures Trimmed(s) ==> Trim(s) == s
    ensures Trim(Trim(s)) == Trim(s)
  {
    TrimLeftLaws(s);
    TrimRightLaws(TrimLeft(s));
    assert Trimmed(Trim(s));
  }

  /** Decimal digits of `n`, as fmt's %d prints them. */
  function Decimal(n: nat): (r: string)
    ensures r != [] && forall c :: c in r ==> '0' <= c <= '9'
  {
    var digit := ['0' + (n % 10) as char];
    if n < 10 then digit else Decimal(n / 10) + digit
  }

  /** The number its digits stand for. */
  function Reading(digits: string): int {
    if digits == "" then 0 else Reading(digits[..|digits| - 1]) * 10 + (digits[|digits| - 1] as int - '0' as int)
  }

  lemma ReadingDigit(digits: string, c: char)
    ensures Reading("") == 0
    ensures Reading(digits + [c]) == Reading(digits) * 10 + (c as int - '0' as int)
  {
    assert (digits + [c])[..|digits|] == digits;
  }

  lemma LastDigit(n: nat) returns (c: char)
    ensures c as int - '0' as int == n % 10
    ensures Decimal(n) == (if n < 10 then "" else Decimal(n / 10)) + [c]
  {
    c := '0' + (n % 10) as char;
    assert "" + [c] == [c];
  }

  /** The digits read back as the number, without a leading zero. */
  lemma {:induction false} DecimalReads(n: nat)
    ensures Reading(Decimal(n)) == n && (n > 0 ==> Decimal(n)[0] != '0')
    ensures n < 10 ==> |Decimal(n)| == 1
  {
    hide Decimal, Reading;
    var c := LastDigit(n);
    ReadingDigit(if n < 10 then "" else Decimal(n / 10), c);
    if n >= 10 {
      DecimalReads(n / 10);
    }
  }

  /** Case folding over ASCII letters. */
  function Lower(s: string): (r: string)
    ensures |r| == |s|
  {
    seq(|s|, i requires 0 <= i < |s| => if 'A' <= s[i] <= 'Z' then s[i] + 32 as char else s[i])
  }

  /** Folding turns capital letters into small ones and leaves every other character; a folded text
      has no capital letter, and folding again changes nothing. */
  lemma LowerFolds(s: string, i: nat)
    requires i < |s|
    ensures 'A' <= s[i] <= 'Z' ==>
              'a' <= Lower(s)[i] <= 'z' && Lower(s)[i] as int - 'a' as int == s[i] as int - 'A' as int
    ensures !('A' <= s[i] <= 'Z') ==> Lower(s)[i] == s[i]
    ensures !('A' <= Lower(s)[i] <= 'Z') && Lower(Lower(s)) == Lower(s)
  {
  }

  predicate OccursAt(hay: string, i: nat, needle: string) {
    i <= |hay| - |needle| && hay[i..i + |needle|] == needle
  }

  /** strings.Contains. */
  predicate ContainsText(hay: string, needle: string) {
    exists i: nat :: i <= |hay| && OccursAt(hay, i, needle)
  }

  /** A text contains another exactly if it is made of something, that text, and something. */
  lemma ContainsIff(hay: string, needle: string)
    ensures ContainsText(hay, needle) <==> exists before, after :: hay == before + needle + after
  {
    if ContainsText(hay, needle) {
      var i: nat :| i <= |hay| && OccursAt(hay, i, needle);
      assert hay == hay[..i] + needle + hay[i + |needle|..];
    }
    if before, after :| hay == before + needle + after {
      assert OccursAt(hay, |before|, needle);
    }
  }

  /** Some element of `list` equals `v` up to case. */
  predicate HoldsFold(list: seq<string>, v: string) {
    exists i :: 0 <= i < |list| && Lower(list[i]) == Lower(v)
  }

  /** cleanStringList as a function: trimmed, non-blank, first of each case-fold class. */
  function Clean(values: seq<string>): seq<string> {
    if values == [] then []
    else
      var front := Clean(values[..|values| - 1]);
      var v := Trim(values[|values| - 1]);
      if v == "" || HoldsFold(front, v) then front else front + [v]
  }

  /** What a cleaned list looks like. */
  predicate IsClean(list: seq<string>) {
    && (forall i :: 0 <= i < |list| ==> list[i] != "" && Trimmed(list[i]))
    && (forall i, j :: 0 <= i < j < |list| ==> Lower(list[i]) != Lower(list[j]))
  }

  lemma {:induction false} CleanIsClean(values: seq<string>)
    ensures IsClean(Clean(values))
  {
    if values != [] {
      CleanIsClean(values[..|values| - 1]);
      TrimLaws(values[|values| - 1]);
    }
  }

  lemma {:induction false} CleanFixed(list: seq<string>)
    requires IsClean(list)
    ensures Clean(list) == list
  {
    if list != [] {
      var front, v := list[..|list| - 1], list[|list| - 1];
      assert list == front + [v];
      CleanFixed(front);
      TrimLaws(v);
      assert v == list[|list| - 1];
      assert !HoldsFold(front, v);
    }
  }

  /** Nothing is lost: every non-blank input has its case-fold class represented. */
  lemma {:induction false} CleanCovers(values: seq<string>, i: nat)
    requires i < |values| && Trim(values[i]) != ""
    ensures HoldsFold(Clean(values), Trim(values[i]))
  {
    var front := values[..|values| - 1];
    var v := Trim(values[|values| - 1]);
    var c := Clean(front);
    if i < |front| {
      CleanCovers(front, i);
      var k :| 0 <= k < |c| && Lower(c[k]) == Lower(Trim(values[i]));
      assert Clean(values)[k] == c[k];
    } else if !HoldsFold(c, v) {
      assert Clean(values)[|c|] == v;
    }
  }

  /** Nothing is invented: every entry is the trimmed first input of its case-fold class. */
  lemma {:induction false} CleanFirst(values: seq<string>, k: nat) returns (i: nat)
    requires k < |Clean(values)|
    ensures i < |values| && Clean(values)[k] == Trim(values[i])
    ensures forall j :: 0 <= j < i && Trim(values[j]) != "" ==> Lower(Trim(values[j])) != Lower(Trim(values[i]))
  {
    var n := |values| - 1;
    var front := values[..n];
    if k < |Clean(front)| {
      i := CleanFirst(front, k);
    } else {
      i := n;
      forall j | 0 <= j < n && Trim(values[j]) != ""
        ensures Lower(Trim(values[j])) != Lower(Trim(values[n]))
      {
        CleanCovers(front, j);
        var c := Clean(front);
        var m :| 0 <= m < |c| && Lower(c[m]) == Lower(Trim(front[j]));
        assert !HoldsFold(c, Trim(values[n]));
      }
    }
  }

  /** cleanStringList: one pass with the set of folded keys already taken. */
  method CleanStringList(values: seq<string>) returns (out: seq<string>)
    ensures out == Clean(values)
  {
    out := [];
    var seen: set<string> := {};
    for i := 0 to |values|
      invariant out == Clean(values[..i])
      invariant forall k :: 0 <= k < |out| ==> Lower(out[k]) in seen
      invariant forall key :: key in seen ==> exists k :: 0 <= k < |out| && Lower(out[k]) == key
    {
      assert values[..i + 1][..i] == values[..i];
      var v := Trim(values[i]);
      if v == "" {
        continue;
      }
      var key := Lower(v);
      if key in seen {
        continue;
      }
      seen := seen + {key};
      ghost var taken := out;
      out := out + [v];
      assert out[|taken|] == v && forall k :: 0 <= k < |taken| ==> out[k] == taken[k];
    }
    assert values[..|values|] == values;
  }
}
