/** Character and string helpers shared by the components: .NET's notion of
    white space, Trim, IsNullOrWhiteSpace, ASCII case mapping and
    single-character Replace. */
module Text {

  /** Char.IsWhiteSpace: the Unicode space separators, line and paragraph
      separators, and the control characters U+0009..U+000D and U+0085. */
  predicate IsWhiteSpace(c: char)
  {
    ('\U{0009}' <= c <= '\U{000D}') || c == ' ' || c == '\U{0085}' || c == '\U{00A0}'
    || c == '\U{1680}' || ('\U{2000}' <= c <= '\U{200A}') || c == '\U{2028}'
    || c == '\U{2029}' || c == '\U{202F}' || c == '\U{205F}' || c == '\U{3000}'
  }

  /** string.IsNullOrWhiteSpace for a non-null string. */
  predicate IsBlank(s: string)
  {
    forall i :: 0 <= i < |s| ==> IsWhiteSpace(s[i])
  }

  /** The number of leading characters satisfying `drop`. */
  function LeadCount(s: string, drop: char -> bool): (n: nat)
    ensures n <= |s|
  {
    if s == [] || !drop(s[0]) then 0 else 1 + LeadCount(s[1..], drop)
  }

  /** The number of trailing characters satisfying `drop`. */
  function TrailCount(s: string, drop: char -> bool): (n: nat)
    ensures n <= |s|
  {
    if s == [] || !drop(s[|s| - 1]) then 0 else 1 + TrailCount(s[..|s| - 1], drop)
  }

  /** Drops leading characters satisfying `drop`. */
  function TrimStartWith(s: string, drop: char -> bool): string
  {
    s[LeadCount(s, drop)..]
  }

  /** Drops trailing characters satisfying `drop`. */
  function TrimEndWith(s: string, drop: char -> bool): string
  {
    s[..|s| - TrailCount(s, drop)]
  }

  /** The dropped leading characters all satisfy `drop`, the first kept
      one does not. */
  lemma {:induction false} LeadCountFacts(s: string, drop: char -> bool)
    ensures forall i :: 0 <= i < LeadCount(s, drop) ==> drop(s[i])
    ensures LeadCount(s, drop) < |s| ==> !drop(s[LeadCount(s, drop)])
  {
    if s != [] && drop(s[0]) {
      LeadCountFacts(s[1..], drop);
      forall i | 0 < i < LeadCount(s, drop) ensures drop(s[i]) {
        assert s[i] == s[1..][i - 1];
      }
    }
  }

  /** The dropped trailing characters all satisfy `drop`, the last kept
      one does not. */
  lemma {:induction false} TrailCountFacts(s: string, drop: char -> bool)
    ensures forall i :: |s| - TrailCount(s, drop) <= i < |s| ==> drop(s[i])
    ensures TrailCount(s, drop) < |s| ==> !drop(s[|s| - TrailCount(s, drop) - 1])
  {
    if s != [] && drop(s[|s| - 1]) {
      TrailCountFacts(s[..|s| - 1], drop);
    }
  }

  /** Removes leading and trailing characters satisfying `drop`. */
  function TrimWith(s: string, drop: char -> bool): string
  {
    TrimEndWith(TrimStartWith(s, drop), drop)
  }

  /** string.Trim(): removes leading and trailing white space. */
  function Trim(s: string): string
  {
    TrimWith(s, IsWhiteSpace)
  }

  /** The result of TrimWith is the slice of the input after the leading
      droppable characters, and everything cut off on either side is
      droppable. */
  lemma TrimWithSlice(s: string, drop: char -> bool)
    ensures var r := TrimWith(s, drop);
            var k := LeadCount(s, drop);
            && k + |r| <= |s| && r == s[k..k + |r|]
            && (forall i :: 0 <= i < k ==> drop(s[i]))
            && (forall i :: k + |r| <= i < |s| ==> drop(s[i]))
  {
    var k := LeadCount(s, drop);
    var r := TrimWith(s, drop);
    assert k + |r| <= |s| && r == s[k..k + |r|];
    LeadCountFacts(s, drop);
    TrailDropped(s, drop);
  }

  /** Everything TrimWith cuts off at the end is droppable. */
  lemma TrailDropped(s: string, drop: char -> bool)
    ensures var r := TrimWith(s, drop);
            var k := LeadCount(s, drop);
            k + |r| <= |s| && forall i :: k + |r| <= i < |s| ==> drop(s[i])
  {
    var k := LeadCount(s, drop);
    var a := TrimStartWith(s, drop);
    TrailCountFacts(a, drop);
    forall i | k + |TrimWith(s, drop)| <= i < |s| ensures drop(s[i]) {
      assert s[i] == a[i - k];
    }
  }

  /** The result of TrimWith has no droppable character at either end. */
  lemma TrimWithEnds(s: string, drop: char -> bool)
    ensures var r := TrimWith(s, drop);
            r != [] ==> !drop(r[0]) && !drop(r[|r| - 1])
  {
    var a := TrimStartWith(s, drop);
    var r := TrimWith(s, drop);
    TrailCountFacts(a, drop);
    if r != [] {
      LeadCountFacts(s, drop);
      assert r[0] == a[0] == s[LeadCount(s, drop)];
    }
  }

  /** Both facts about TrimWith together. */
  lemma TrimWithShape(s: string, drop: char -> bool)
    ensures var r := TrimWith(s, drop);
      && |r| <= |s|
      && (r != [] ==> !drop(r[0]) && !drop(r[|r| - 1]))
      && var k := LeadCount(s, drop);
         k + |r| <= |s| && r == s[k..k + |r|]
         && (forall i :: 0 <= i < k ==> drop(s[i]))
         && (forall i :: k + |r| <= i < |s| ==> drop(s[i]))
  {
    TrimWithSlice(s, drop);
    TrimWithEnds(s, drop);
  }

  /** A trimmed string is blank exactly when it is empty, and the original
      string was blank exactly when its trimmed form is empty. */
  lemma TrimBlank(s: string)
    ensures IsBlank(Trim(s)) <==> Trim(s) == []
    ensures IsBlank(s) <==> Trim(s) == []
  {
    TrimWithShape(s, IsWhiteSpace);
    var r := Trim(s);
    var k := LeadCount(s, IsWhiteSpace);
    if r != [] {
      assert !IsWhiteSpace(r[0]);
      assert s[k] == r[0];
    } else {
      forall i | 0 <= i < |s| ensures IsWhiteSpace(s[i]) {
      }
    }
  }

  /** A string whose ends are not droppable is left alone by TrimWith. */
  lemma TrimWithNoop(s: string, drop: char -> bool)
    requires s != [] ==> !drop(s[0]) && !drop(s[|s| - 1])
    ensures TrimWith(s, drop) == s
  {
    assert LeadCount(s, drop) == 0;
    assert s[0..] == s;
  }

  /** ASCII upper-casing of one character. */
  function UpperChar(c: char): (u: char)
  {
    if 'a' <= c <= 'z' then (c as int - 32) as char else c
  }

  /** ASCII lower-casing of one character. */
  function LowerChar(c: char): (l: char)
  {
    if 'A' <= c <= 'Z' then (c as int + 32) as char else c
  }

  /** string.ToUpper(), restricted to ASCII letters. */
  function ToUpper(s: string): (r: string)
    ensures |r| == |s|
  {
    if s == [] then [] else [UpperChar(s[0])] + ToUpper(s[1..])
  }

  /** string.ToLowerInvariant(), restricted to ASCII letters. */
  function ToLower(s: string): (r: string)
    ensures |r| == |s|
  {
    if s == [] then [] else [LowerChar(s[0])] + ToLower(s[1..])
  }

  /** ToUpper maps each character on its own and leaves no lower-case
      ASCII letter. */
  lemma {:induction false} ToUpperIndex(s: string)
    ensures forall i :: 0 <= i < |s| ==> ToUpper(s)[i] == UpperChar(s[i])
    ensures forall i :: 0 <= i < |s| ==> !('a' <= ToUpper(s)[i] <= 'z')
  {
    if s != [] {
      ToUpperIndex(s[1..]);
      assert forall i :: 0 < i < |s| ==> ToUpper(s)[i] == ToUpper(s[1..])[i - 1];
    }
  }

  /** ToLower maps each character on its own and leaves no upper-case
      ASCII letter. */
  lemma {:induction false} ToLowerIndex(s: string)
    ensures forall i :: 0 <= i < |s| ==> ToLower(s)[i] == LowerChar(s[i])
    ensures forall i :: 0 <= i < |s| ==> !('A' <= ToLower(s)[i] <= 'Z')
  {
    if s != [] {
      ToLowerIndex(s[1..]);
      assert forall i :: 0 < i < |s| ==> ToLower(s)[i] == ToLower(s[1..])[i - 1];
    }
  }

  /** Upper-casing never turns a blank string into a non-blank one or back:
      it only changes letters. */
  lemma ToUpperKeepsBlank(s: string)
    ensures IsBlank(ToUpper(s)) <==> IsBlank(s)
  {
    ToUpperIndex(s);
    var u := ToUpper(s);
    assert forall i :: 0 <= i < |s| ==> (IsWhiteSpace(u[i]) <==> IsWhiteSpace(s[i]));
  }

  /** string.Replace(char, char): every occurrence of `c` becomes `repl`. */
  function ReplaceChar(s: string, c: char, repl: char): (r: string)
    ensures |r| == |s|
    ensures forall i :: 0 <= i < |s| ==> r[i] == (if s[i] == c then repl else s[i])
  {
    seq(|s|, i requires 0 <= i < |s| => if s[i] == c then repl else s[i])
  }

  /** string.Replace(string, string) where the searched string is the one
      character `c`: every occurrence of `c` is replaced by `repl`, scanning
      left to right; the inserted text is not scanned again. */
  function ReplaceAll(s: string, c: char, repl: string): (r: string)
  {
    if s == [] then []
    else (if s[0] == c then repl else [s[0]]) + ReplaceAll(s[1..], c, repl)
  }

  /** Number of occurrences of `c` in `s`. */
  function Occurrences(s: string, c: char): nat
  {
    if s == [] then 0 else (if s[0] == c then 1 else 0) + Occurrences(s[1..], c)
  }

  /** ReplaceAll leaves no occurrence of `c` unless the replacement brings one
      in, keeps every other character, and grows the text by |repl| - 1 per
      occurrence. */
  lemma {:induction false} ReplaceAllFacts(s: string, c: char, repl: string)
    ensures |ReplaceAll(s, c, repl)| == |s| + Occurrences(s, c) * (|repl| - 1)
    ensures c !in repl ==> c !in ReplaceAll(s, c, repl)
    ensures c !in s ==> ReplaceAll(s, c, repl) == s
    ensures forall d :: d != c && d in s ==> d in ReplaceAll(s, c, repl)
    ensures forall d :: d in ReplaceAll(s, c, repl) ==> d in s || d in repl
  {
    if s != [] {
      ReplaceAllFacts(s[1..], c, repl);
      var head := if s[0] == c then repl else [s[0]];
      assert ReplaceAll(s, c, repl) == head + ReplaceAll(s[1..], c, repl);
      forall d | d != c && d in s ensures d in ReplaceAll(s, c, repl) {
        if d == s[0] {
          assert head == [d];
        } else {
          assert d in s[1..];
        }
      }
      forall d | d in ReplaceAll(s, c, repl) ensures d in s || d in repl {
        if d in head {
          if s[0] != c { assert d == s[0]; }
        } else {
          assert d in ReplaceAll(s[1..], c, repl);
          assert d in s[1..] ==> d in s;
        }
      }
    }
  }

  /** Text joined around a separator that the first part does not
      contain splits back into the same two parts. */
  lemma SplitAtSeparator(a1: string, b1: string, a2: string, b2: string, sep: char)
    requires sep !in a1 && sep !in a2
    requires a1 + [sep] + b1 == a2 + [sep] + b2
    ensures a1 == a2 && b1 == b2
  {
    var s := a1 + [sep] + b1;
    assert s[|a1|] == sep;
    assert (a2 + [sep] + b2)[|a2|] == sep;
    assert |a1| == |a2|;
    assert a1 == s[..|a1|] == a2;
    assert b1 == s[|a1| + 1..] == b2;
  }
}
