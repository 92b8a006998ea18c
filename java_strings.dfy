/** The two pieces of java.lang.String behaviour the core relies on:
    `split` around a single literal character (limit 0, so trailing empty
    pieces are dropped) and lower-casing of command labels. */
module JavaStrings {

  /** The pieces of `s` between occurrences of `c`, empty pieces included:
      always one more piece than there are separators. */
  function Segments(s: string, c: char): (r: seq<string>)
    ensures |r| >= 1
    decreases |s|
  {
    if s == [] then [[]]
    else
      var rest := Segments(s[1..], c);
      if s[0] == c then [[]] + rest
      else [[s[0]] + rest[0]] + rest[1..]
  }

  /** Glues pieces back together with `c` between neighbours. */
  function Join(parts: seq<string>, c: char): string
    decreases |parts|
  {
    if parts == [] then []
    else if |parts| == 1 then parts[0]
    else parts[0] + [c] + Join(parts[1..], c)
  }

  /** Removes the empty pieces at the end, as `split` with limit 0 does. */
  function DropTrailingEmpty(parts: seq<string>): (r: seq<string>)
    ensures r <= parts
    ensures r == [] || r[|r| - 1] != []
    ensures forall i :: |r| <= i < |parts| ==> parts[i] == []
    decreases |parts|
  {
    if parts == [] then []
    else if parts[|parts| - 1] == [] then DropTrailingEmpty(parts[..|parts| - 1])
    else parts
  }

  /** `s.split(Pattern.quote(c))`: the whole string when `c` does not occur,
      otherwise the pieces with the trailing empty ones removed (which may
      leave no piece at all). */
  function Split(s: string, c: char): (r: seq<string>)
    ensures forall i :: 0 <= i < |r| ==> c !in r[i]
    ensures c !in s ==> r == [s]
    ensures c in s ==> r <= Segments(s, c) && (r == [] || r[|r| - 1] != [])
    ensures c in s ==> forall i :: |r| <= i < |Segments(s, c)| ==> Segments(s, c)[i] == []
  {
    if c !in s then [s]
    else
      SegmentsSeparatorFree(s, c);
      DropTrailingEmpty(Segments(s, c))
  }

  /** No piece holds the separator. */
  lemma {:induction false} SegmentsSeparatorFree(s: string, c: char)
    ensures forall i :: 0 <= i < |Segments(s, c)| ==> c !in Segments(s, c)[i]
    decreases |s|
  {
    if s != [] {
      SegmentsSeparatorFree(s[1..], c);
      var rest := Segments(s[1..], c);
      if s[0] != c {
        assert c !in rest[0];
        assert c !in [s[0]] + rest[0];
      }
    }
  }

  /** Gluing the pieces back gives the original string: nothing is lost
      but the separators. */
  lemma {:induction false} JoinSegments(s: string, c: char)
    ensures Join(Segments(s, c), c) == s
    decreases |s|
  {
    if s != [] {
      JoinSegments(s[1..], c);
      var rest := Segments(s[1..], c);
      if s[0] == c {
        assert ([[]] + rest)[1..] == rest;
      } else {
        JoinConsFirst(s[0], rest, c);
      }
    }
  }

  lemma JoinConsFirst(x: char, parts: seq<string>, c: char)
    requires |parts| >= 1
    ensures Join([[x] + parts[0]] + parts[1..], c) == [x] + Join(parts, c)
  {
    var q := [[x] + parts[0]] + parts[1..];
    assert q[1..] == parts[1..];
  }

  /** A string without the separator is a single piece. */
  lemma {:induction false} SegmentsWithoutSeparator(s: string, c: char)
    requires c !in s
    ensures Segments(s, c) == [s]
    decreases |s|
  {
    if s != [] {
      SegmentsWithoutSeparator(s[1..], c);
      assert [s[0]] + s[1..] == s;
    }
  }

  /** A separator-free word followed by a separator is the first piece,
      and the rest of the string supplies the remaining pieces. */
  lemma {:induction false} SegmentsAfterWord(a: string, y: string, c: char)
    requires c !in a
    ensures Segments(a + [c] + y, c) == [a] + Segments(y, c)
    decreases |a|
  {
    var s := a + [c] + y;
    if a == [] {
      assert s[0] == c && s[1..] == y;
    } else {
      assert s[0] == a[0] && s[1..] == a[1..] + [c] + y;
      SegmentsAfterWord(a[1..], y, c);
      assert [a[0]] + a[1..] == a;
    }
  }

  /** Two separator-free words around one separator split into exactly
      those two words. */
  lemma SplitPair(a: string, b: string, c: char)
    requires c !in a && c !in b && b != []
    ensures Split(a + [c] + b, c) == [a, b]
  {
    var s := a + [c] + b;
    assert s[|a|] == c;
    SegmentsAfterWord(a, b, c);
    SegmentsWithoutSeparator(b, c);
  }

  /** A word followed by a separator splits into that word alone. */
  lemma SplitWordSpace(a: string, c: char)
    requires c !in a && a != []
    ensures Split(a + [c], c) == [a]
  {
    var s := a + [c];
    assert s[|a|] == c;
    assert s == a + [c] + [];
    SegmentsAfterWord(a, [], c);
    assert Segments(s, c) == [a, []];
    assert [a, []][..1] == [a];
    assert DropTrailingEmpty([a, []]) == DropTrailingEmpty([a]);
  }

  /** Two words each followed by a separator split into the two words. */
  lemma SplitPairSpace(a: string, b: string, c: char)
    requires c !in a && c !in b && b != []
    ensures Split(a + [c] + b + [c], c) == [a, b]
  {
    var s := a + [c] + b + [c];
    assert s[|a|] == c;
    assert s == a + [c] + (b + [c] + []);
    SegmentsAfterWord(a, b + [c] + [], c);
    SegmentsAfterWord(b, [], c);
    assert Segments(s, c) == [a, b, []];
    assert [a, b, []][..2] == [a, b];
    assert DropTrailingEmpty([a, b, []]) == DropTrailingEmpty([a, b]);
  }

  /** A string made only of separators yields no piece at all. */
  lemma SplitOnlySeparators(s: string, c: char)
    requires s != []
    requires forall i :: 0 <= i < |s| ==> s[i] == c
    ensures Split(s, c) == []
  {
    assert s[0] == c;
    SegmentsOfSeparators(s, c);
  }

  lemma {:induction false} SegmentsOfSeparators(s: string, c: char)
    requires forall i :: 0 <= i < |s| ==> s[i] == c
    ensures forall i :: 0 <= i < |Segments(s, c)| ==> Segments(s, c)[i] == []
    decreases |s|
  {
    if s != [] {
      SegmentsOfSeparators(s[1..], c);
    }
  }

  /** Only a non-empty string of separators splits into no piece at all:
      the converse of `SplitOnlySeparators`. */
  lemma SplitEmptyOnlySeparators(s: string, c: char)
    requires Split(s, c) == []
    ensures s != []
    ensures forall i :: 0 <= i < |s| ==> s[i] == c
  {
    var parts := Segments(s, c);
    assert forall k :: 0 <= k < |parts| ==> parts[k] == [];
    JoinSegments(s, c);
    JoinOfEmptyPieces(parts, c);
  }

  /** Gluing empty pieces leaves only separators. */
  lemma {:induction false} JoinOfEmptyPieces(parts: seq<string>, c: char)
    requires forall k :: 0 <= k < |parts| ==> parts[k] == []
    ensures forall i :: 0 <= i < |Join(parts, c)| ==> Join(parts, c)[i] == c
    decreases |parts|
  {
    if |parts| > 1 {
      JoinOfEmptyPieces(parts[1..], c);
      assert Join(parts, c) == [c] + Join(parts[1..], c);
    }
  }

  /** `Character.toLowerCase` restricted to the letters an English locale
      changes in command labels. */
  function LowerChar(ch: char): char
  {
    if 'A' <= ch <= 'Z' then (ch as int + 32) as char else ch
  }

  /** `s.toLowerCase(Locale.ENGLISH)` on ASCII letters. */
  function ToLowerEnglish(s: string): (r: string)
    ensures |r| == |s|
    ensures forall i :: 0 <= i < |s| ==> r[i] == LowerChar(s[i])
  {
    seq(|s|, i requires 0 <= i < |s| => LowerChar(s[i]))
  }

  /** A string without capital letters is already lower case. */
  lemma ToLowerEnglishKeepsLowercase(s: string)
    requires forall i :: 0 <= i < |s| ==> !('A' <= s[i] <= 'Z')
    ensures ToLowerEnglish(s) == s
  {
    assert forall i :: 0 <= i < |s| ==> ToLowerEnglish(s)[i] == s[i];
  }

  /** Lower-casing leaves no capital letter, so doing it twice changes
      nothing more. */
  lemma ToLowerEnglishIdempotent(s: string)
    ensures forall i :: 0 <= i < |s| ==> !('A' <= ToLowerEnglish(s)[i] <= 'Z')
    ensures ToLowerEnglish(ToLowerEnglish(s)) == ToLowerEnglish(s)
  {
    ToLowerEnglishKeepsLowercase(ToLowerEnglish(s));
  }

  /** Lower-casing forgets exactly the case of ASCII letters: "PLOT",
      "Plot" and "plot" all become "plot". */
  lemma ToLowerEnglishFoldsCase()
    ensures ToLowerEnglish("PLOT") == "plot"
    ensures ToLowerEnglish("Plot") == "plot"
    ensures ToLowerEnglish("plot") == "plot"
  {
    ToLowerEnglishKeepsLowercase("plot");
  }
}
