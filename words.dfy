/** String operations the game engine relies on: lower-casing, the
    whitespace test behind `trim()`, the one-letter slices used to chain
    words, and JavaScript's substring test `String.prototype.includes`
    together with the `.some(...)` search over a word list. */
module Words {

  /** `toLowerCase()` on one character, restricted to ASCII: 'A'..'Z'
      become 'a'..'z', every other character is left as it is. */
  function LowerChar(c: char): (d: char)
    ensures !('A' <= d <= 'Z')
    ensures 'A' <= c <= 'Z' ==> d as int == c as int + 32
    ensures !('A' <= c <= 'Z') ==> d == c
  {
    if 'A' <= c <= 'Z' then (c as int + 32) as char else c
  }

  /** `toLowerCase()` on a string, character by character: the result has
      no capital letter, each capital is replaced by its small letter and
      every other character is kept in place. */
  function Lower(s: string): (r: string)
    ensures |r| == |s|
    ensures forall i :: 0 <= i < |r| ==> !('A' <= r[i] <= 'Z')
    ensures forall i :: 0 <= i < |s| && 'A' <= s[i] <= 'Z' ==> r[i] as int == s[i] as int + 32
    ensures forall i :: 0 <= i < |s| && !('A' <= s[i] <= 'Z') ==> r[i] == s[i]
  {
    seq(|s|, i requires 0 <= i < |s| => LowerChar(s[i]))
  }

  /** Lower-casing twice is lower-casing once. */
  lemma LowerIdempotent(s: string)
    ensures Lower(Lower(s)) == Lower(s)
  {
    assert forall i :: 0 <= i < |s| ==> Lower(Lower(s))[i] == Lower(s)[i];
  }

  /** The characters `String.prototype.trim` removes: the ECMAScript
      WhiteSpace and LineTerminator code points. */
  predicate IsWhitespace(c: char)
  {
    || c == '\t' || c == '\n' || c == '\U{000B}' || c == '\U{000C}' || c == '\r'
    || c == ' ' || c == '\U{00A0}' || c == '\U{1680}'
    || ('\U{2000}' <= c <= '\U{200A}')
    || c == '\U{2028}' || c == '\U{2029}' || c == '\U{202F}' || c == '\U{205F}'
    || c == '\U{3000}' || c == '\U{FEFF}'
  }

  predicate AllWhitespace(s: string)
  {
    forall i :: 0 <= i < |s| ==> IsWhitespace(s[i])
  }

  /** Lower-casing neither creates nor removes whitespace. */
  lemma LowerKeepsWhitespace(s: string)
    ensures AllWhitespace(Lower(s)) <==> AllWhitespace(s)
  {
    forall i | 0 <= i < |s|
      ensures IsWhitespace(Lower(s)[i]) <==> IsWhitespace(s[i])
    {
      assert Lower(s)[i] == LowerChar(s[i]);
    }
  }

  /** `s` with its leading whitespace removed. */
  function TrimStart(s: string): string
  {
    if |s| > 0 && IsWhitespace(s[0]) then TrimStart(s[1..]) else s
  }

  /** `s` with its trailing whitespace removed. */
  function TrimEnd(s: string): string
  {
    if |s| > 0 && IsWhitespace(s[|s| - 1]) then TrimEnd(s[..|s| - 1]) else s
  }

  /** Trimming the start removes a prefix of whitespace only, and leaves a
      suffix of `s` that is empty exactly when `s` is all whitespace and
      otherwise starts with a non-whitespace character. */
  lemma {:induction false} TrimStartFacts(s: string)
    ensures var r := TrimStart(s);
      && |r| <= |s| && r == s[|s| - |r|..]
      && (r == [] <==> AllWhitespace(s))
      && (r != [] ==> !IsWhitespace(r[0]))
      && (forall i :: 0 <= i < |s| - |r| ==> IsWhitespace(s[i]))
  {
    if |s| > 0 && IsWhitespace(s[0]) {
      TrimStartFacts(s[1..]);
      var r := TrimStart(s[1..]);
      forall i | 0 < i < |s| - |r| ensures IsWhitespace(s[i]) {
        assert s[i] == s[1..][i - 1];
      }
      assert AllWhitespace(s) <==> AllWhitespace(s[1..]) by {
        if AllWhitespace(s[1..]) {
          forall i | 0 < i < |s| ensures IsWhitespace(s[i]) {
            assert s[i] == s[1..][i - 1];
          }
        }
      }
    }
  }

  /** Trimming the end removes a suffix of whitespace only, and leaves a
      prefix of `s` that is empty exactly when `s` is all whitespace and
      otherwise ends with a non-whitespace character. */
  lemma {:induction false} TrimEndFacts(s: string)
    ensures var r := TrimEnd(s);
      && |r| <= |s| && r == s[..|r|]
      && (r == [] <==> AllWhitespace(s))
      && (r != [] ==> !IsWhitespace(r[|r| - 1]))
      && (forall i :: |r| <= i < |s| ==> IsWhitespace(s[i]))
  {
    if |s| > 0 && IsWhitespace(s[|s| - 1]) {
      var p := s[..|s| - 1];
      TrimEndFacts(p);
      assert AllWhitespace(s) <==> AllWhitespace(p) by {
        if AllWhitespace(p) {
          forall i | 0 <= i < |s| ensures IsWhitespace(s[i]) {
            if i < |s| - 1 { assert s[i] == p[i]; }
          }
        }
      }
      var r := TrimEnd(p);
      assert s[..|r|] == p[..|r|];
      forall i | |r| <= i < |s| - 1 ensures IsWhitespace(s[i]) {
        assert s[i] == p[i];
      }
    }
  }

  /** `s.trim()`. */
  function Trim(s: string): string
  {
    TrimEnd(TrimStart(s))
  }

  /** `s.trim() == ""`, the test the ENTER key applies first. */
  predicate IsBlank(s: string)
  {
    Trim(s) == ""
  }

  /** A string trims to nothing exactly when every character in it is
      whitespace; in particular the empty string is blank. */
  lemma BlankIffAllWhitespace(s: string)
    ensures IsBlank(s) <==> AllWhitespace(s)
  {
    var t := TrimStart(s);
    TrimStartFacts(s);
    TrimEndFacts(t);
    if !AllWhitespace(s) {
      assert t != [] && !IsWhitespace(t[0]);
      assert !AllWhitespace(t);
    }
  }

  /** `s.charAt(0).toLowerCase()`: the lower-cased first letter, or "" for
      the empty string. */
  function FirstLetter(s: string): (r: string)
    ensures |r| <= 1 && (r == [] <==> s == [])
    ensures |s| > 0 ==> r == Lower(s[..1])
  {
    if |s| == 0 then "" else [LowerChar(s[0])]
  }

  /** `s.slice(-1).toLowerCase()`: the lower-cased last letter, or "" for
      the empty string. */
  function LastLetter(s: string): (r: string)
    ensures |r| <= 1 && (r == [] <==> s == [])
    ensures |s| > 0 ==> r == Lower(s[|s| - 1..])
  {
    if |s| == 0 then "" else [LowerChar(s[|s| - 1])]
  }

  /** Chaining compares lower-cased letters, so lower-casing a word first
      changes neither of its end letters. */
  lemma EndLettersIgnoreCase(s: string)
    ensures FirstLetter(Lower(s)) == FirstLetter(s)
    ensures LastLetter(Lower(s)) == LastLetter(s)
  {
    if |s| > 0 {
      assert Lower(s)[0] == LowerChar(s[0]);
      assert Lower(s)[|s| - 1] == LowerChar(s[|s| - 1]);
    }
  }

  /** `needle` occurs in `hay` starting at position `i`. */
  predicate OccursAt(hay: string, needle: string, i: int)
  {
    0 <= i && i + |needle| <= |hay| && hay[i..i + |needle|] == needle
  }

  /** `hay.includes(needle)`: is `needle` a prefix of `hay` or of one of
      its suffixes? */
  function Includes(hay: string, needle: string): bool
  {
    needle <= hay || (|hay| > 0 && Includes(hay[1..], needle))
  }

  /** `Includes` is substring containment: it holds exactly when `needle`
      occurs somewhere in `hay`. */
  lemma {:induction false} IncludesIff(hay: string, needle: string)
    ensures Includes(hay, needle) <==> exists i :: OccursAt(hay, needle, i)
  {
    if needle <= hay {
      assert OccursAt(hay, needle, 0);
    } else if |hay| == 0 {
      assert forall i :: OccursAt(hay, needle, i) ==> needle <= hay;
    } else {
      IncludesIff(hay[1..], needle);
      if Includes(hay[1..], needle) {
        var i :| OccursAt(hay[1..], needle, i);
        assert hay[1..][i..i + |needle|] == hay[i + 1..i + 1 + |needle|];
        assert OccursAt(hay, needle, i + 1);
      }
      if i :| OccursAt(hay, needle, i) {
        assert i != 0;
        assert hay[1..][i - 1..i - 1 + |needle|] == hay[i..i + |needle|];
        assert OccursAt(hay[1..], needle, i - 1);
      }
    }
  }

  /** Every string contains itself. */
  lemma IncludesSelf(w: string)
    ensures Includes(w, w)
  {
  }

  /** `list.some(entry => entry.includes(w))`: does some entry of `list`
      contain `w`? */
  predicate SomeIncludes(list: seq<string>, w: string)
  {
    |list| > 0 && (SomeIncludes(list[..|list| - 1], w) || Includes(list[|list| - 1], w))
  }

  /** The search succeeds exactly when some entry of the list contains the
      word. */
  lemma {:induction false} SomeIncludesIff(list: seq<string>, w: string)
    ensures SomeIncludes(list, w) <==> exists j :: 0 <= j < |list| && Includes(list[j], w)
  {
    if |list| > 0 {
      var p := list[..|list| - 1];
      SomeIncludesIff(p, w);
      if SomeIncludes(p, w) {
        var j :| 0 <= j < |p| && Includes(p[j], w);
        assert list[j] == p[j];
      }
      if j :| 0 <= j < |list| && Includes(list[j], w) {
        if j < |p| {
          assert p[j] == list[j];
        }
      }
    }
  }

  /** Exact membership is one way for the substring search to succeed:
      a word already in the list is always found. */
  lemma MemberIsFound(list: seq<string>, w: string)
    requires w in list
    ensures SomeIncludes(list, w)
  {
    var j :| 0 <= j < |list| && list[j] == w;
    IncludesSelf(w);
    SomeIncludesIff(list, w);
  }

  /** The converse fails: "cat" is found in a list holding only
      "concatenate". */
  lemma SubstringIsFound()
    ensures SomeIncludes(["concatenate"], "cat") && "cat" !in ["concatenate"]
  {
    assert OccursAt("concatenate", "cat", 3);
    IncludesIff("concatenate", "cat");
    assert ["concatenate"][..0] == [];
  }

  /** Searching a list extended by one entry searches the old list and the
      new entry. */
  lemma SomeIncludesAppend(list: seq<string>, x: string, w: string)
    ensures SomeIncludes(list + [x], w) <==> SomeIncludes(list, w) || Includes(x, w)
  {
    assert (list + [x])[..|list|] == list;
  }

  /** No word appears twice: each word is absent from the words before
      it. */
  predicate NoDuplicates(s: seq<string>)
  {
    |s| == 0 || (s[|s| - 1] !in s[..|s| - 1] && NoDuplicates(s[..|s| - 1]))
  }

  /** The list form of "no duplicates" is the pairwise one: any two
      positions hold different words. */
  lemma {:induction false} NoDuplicatesIff(s: seq<string>)
    ensures NoDuplicates(s) <==> forall i, j :: 0 <= i < j < |s| ==> s[i] != s[j]
  {
    if |s| > 0 {
      var p := s[..|s| - 1];
      NoDuplicatesIff(p);
      if NoDuplicates(s) {
        forall i, j | 0 <= i < j < |s| ensures s[i] != s[j] {
          if j == |s| - 1 {
            assert s[i] == p[i];
          } else {
            assert s[i] == p[i] && s[j] == p[j];
          }
        }
      }
      if forall i, j :: 0 <= i < j < |s| ==> s[i] != s[j] {
        forall i, j | 0 <= i < j < |p| ensures p[i] != p[j] {
          assert p[i] == s[i] && p[j] == s[j];
        }
      }
    }
  }

  /** Appending a word that the substring search does not find keeps a list
      free of duplicates. */
  lemma AppendUnfoundKeepsDistinct(list: seq<string>, w: string)
    requires NoDuplicates(list) && !SomeIncludes(list, w)
    ensures NoDuplicates(list + [w]) && SomeIncludes(list + [w], w)
  {
    if w in list {
      MemberIsFound(list, w);
    }
    assert (list + [w])[..|list|] == list;
    IncludesSelf(w);
    SomeIncludesAppend(list, w, w);
  }
}
