/**
 * The answer normaliser of the benchmark driver:
 * `normalize(s) = " ".join(str(s).lower().split())`.
 */
module Normalize {
  import opened Wrappers

  /** The characters Python's `str.split()` (no separator) treats as whitespace. */
  predicate IsSpace(c: char) {
    || c == ' '
    || ('\t' <= c <= '\r')
    || ('\U{1C}' <= c <= '\U{1F}')
    || c == '\U{85}' || c == '\U{A0}' || c == '\U{1680}'
    || ('\U{2000}' <= c <= '\U{200A}')
    || c == '\U{2028}' || c == '\U{2029}' || c == '\U{202F}' || c == '\U{205F}' || c == '\U{3000}'
  }

  predicate IsUpper(c: char) {
    'A' <= c <= 'Z'
  }

  function LowerChar(c: char): char {
    if IsUpper(c) then (c as int + 32) as char else c
  }

  /** `str.lower()`, restricted to the ASCII letters. */
  function Lower(s: string): (r: string)
    ensures |r| == |s|
    ensures forall i :: 0 <= i < |s| ==> r[i] == LowerChar(s[i])
  {
    seq(|s|, i requires 0 <= i < |s| => LowerChar(s[i]))
  }

  /** A word as `split()` yields it: non-empty, without whitespace. */
  predicate IsWord(w: string) {
    |w| > 0 && forall i :: 0 <= i < |w| ==> !IsSpace(w[i])
  }

  /** Length of the leading run of non-whitespace characters. */
  function WordLen(s: string): (n: nat)
    ensures n <= |s|
    ensures forall i :: 0 <= i < n ==> !IsSpace(s[i])
    ensures n < |s| ==> IsSpace(s[n])
  {
    if s == [] || IsSpace(s[0]) then 0 else 1 + WordLen(s[1..])
  }

  /** `str.split()` with no argument: the maximal runs of non-whitespace characters. */
  function Words(s: string): seq<string>
    decreases |s|
  {
    if s == [] then []
    else if IsSpace(s[0]) then Words(s[1..])
    else
      var n := WordLen(s);
      [s[..n]] + Words(s[n..])
  }

  /** `" ".join(ws)`. */
  function Join(ws: seq<string>): string {
    if ws == [] then ""
    else if |ws| == 1 then ws[0]
    else ws[0] + " " + Join(ws[1..])
  }

  /** Python's `str(x)` on an answer that is a string or `None`. */
  function PyStr(x: Option<string>): string {
    match x
    case None => "None"
    case Some(s) => s
  }

  function Normalize(s: string): string {
    Join(Words(Lower(s)))
  }

  /** The driver's verdict: `normalize(gold) == normalize(pred)`. */
  predicate AnswersMatch(gold: Option<string>, pred: Option<string>) {
    Normalize(PyStr(gold)) == Normalize(PyStr(pred))
  }

  /**
   * A normalised string: lower case, and whitespace only as single ASCII
   * spaces strictly between two non-whitespace characters.
   */
  predicate IsNormal(r: string) {
    forall i :: 0 <= i < |r| ==> NormalAt(r, i)
  }

  /** The condition `IsNormal` puts on position `i`. */
  predicate NormalAt(r: string, i: nat)
    requires i < |r|
  {
    && !IsUpper(r[i])
    && (IsSpace(r[i]) ==> r[i] == ' ' && 0 < i < |r| - 1 && !IsSpace(r[i + 1]))
  }

  // ---------------------------------------------------------------------
  // Properties


  lemma {:induction false} WordsAreWords(s: string)
    ensures forall k :: 0 <= k < |Words(s)| ==> IsWord(Words(s)[k])
    decreases |s|
  {
    if s == [] {
    } else if IsSpace(s[0]) {
      WordsAreWords(s[1..]);
    } else {
      WordsAreWords(s[WordLen(s)..]);
    }
  }

  /** Every character of every word is a character of the input. */
  lemma {:induction false} WordsCharsFromInput(s: string)
    ensures forall k, i :: 0 <= k < |Words(s)| && 0 <= i < |Words(s)[k]| ==> Words(s)[k][i] in s
    decreases |s|
  {
    if s == [] {
    } else if IsSpace(s[0]) {
      WordsCharsFromInput(s[1..]);
    } else {
      var n := WordLen(s);
      WordsCharsFromInput(s[n..]);
      forall k, i | 0 <= k < |Words(s)| && 0 <= i < |Words(s)[k]|
        ensures Words(s)[k][i] in s
      {
        if k == 0 {
          assert Words(s)[0] == s[..n];
          assert s[i] in s;
        } else {
          assert Words(s)[k] == Words(s[n..])[k - 1];
          assert Words(s[n..])[k - 1][i] in s[n..];
        }
      }
    }
  }

  /** Joining words that are lower case gives a normalised string. */
  lemma {:induction false} JoinIsNormal(ws: seq<string>)
    requires forall k :: 0 <= k < |ws| ==> IsWord(ws[k])
    requires forall k, i :: 0 <= k < |ws| && 0 <= i < |ws[k]| ==> !IsUpper(ws[k][i])
    ensures IsNormal(Join(ws))
  {
    if |ws| <= 1 {
    } else {
      JoinIsNormal(ws[1..]);
      var w, rest := ws[0], Join(ws[1..]);
      var r := w + " " + rest;
      assert Join(ws) == r;
      assert IsWord(ws[0]) && IsWord(ws[1]);
      assert |rest| > 0 && !IsSpace(rest[0]) by {
        if |ws| == 2 {
          assert rest == ws[1];
        } else {
          assert rest == ws[1] + " " + Join(ws[2..]);
        }
      }
      forall i | 0 <= i < |r|
        ensures NormalAt(r, i)
      {
        if i < |w| {
          assert r[i] == w[i];
        } else if i == |w| {
          assert r[i + 1] == rest[0];
        } else {
          var j := i - |w| - 1;
          assert r[i] == rest[j];
          assert NormalAt(rest, j);
          if IsSpace(rest[j]) {
            assert r[i + 1] == rest[j + 1];
          }
        }
      }
    }
  }

  /** `Normalize` always produces a normalised string. */
  lemma NormalizeIsNormal(s: string)
    ensures IsNormal(Normalize(s))
  {
    var low := Lower(s);
    WordsAreWords(low);
    WordsCharsFromInput(low);
    JoinIsNormal(Words(low));
  }

  /** Words of a word followed by whitespace (or nothing) and more text. */
  lemma WordsOfWordThen(w: string, t: string)
    requires IsWord(w)
    requires t == [] || IsSpace(t[0])
    ensures Words(w + t) == [w] + Words(t)
  {
    var s := w + t;
    assert WordLen(s) == |w| by {
      WordLenPrefix(w, t);
    }
    assert s[..|w|] == w;
    assert s[|w|..] == t;
  }

  lemma {:induction false} WordLenPrefix(w: string, t: string)
    requires forall i :: 0 <= i < |w| ==> !IsSpace(w[i])
    requires t == [] || IsSpace(t[0])
    ensures WordLen(w + t) == |w|
  {
    if w != [] {
      assert (w + t)[1..] == w[1..] + t;
      WordLenPrefix(w[1..], t);
    }
  }

  /** Splitting joined words gives the words back. */
  lemma {:induction false} WordsOfJoin(ws: seq<string>)
    requires forall k :: 0 <= k < |ws| ==> IsWord(ws[k])
    ensures Words(Join(ws)) == ws
  {
    if ws == [] {
    } else if |ws| == 1 {
      WordsOfWordThen(ws[0], []);
      assert ws[0] + [] == ws[0];
    } else {
      var rest := Join(ws[1..]);
      WordsOfJoin(ws[1..]);
      assert Join(ws) == ws[0] + (" " + rest);
      WordsOfWordThen(ws[0], " " + rest);
      WordsAfterSpace(rest);
      assert [ws[0]] + ws[1..] == ws;
    }
  }

  /** A leading space contributes no word. */
  lemma WordsAfterSpace(t: string)
    ensures Words(" " + t) == Words(t)
  {
    assert (" " + t)[1..] == t;
  }

  /** A word that ends at a single space is followed by the words after that space. */
  lemma WordsAtSpace(r: string, n: nat)
    requires 0 < n < |r| && !IsSpace(r[0]) && WordLen(r) == n && r[n] == ' '
    ensures Words(r) == [r[..n]] + Words(r[n + 1..])
  {
    assert r[n..] == " " + r[n + 1..];
    WordsAfterSpace(r[n + 1..]);
  }

  /** `Join` of at least two words puts one space after the first. */
  lemma JoinCons(w: string, ws: seq<string>)
    requires ws != []
    ensures Join([w] + ws) == w + " " + Join(ws)
  {
    assert ([w] + ws)[1..] == ws;
  }

  /** A suffix of a normalised string that starts at a non-whitespace character is normalised. */
  lemma NormalSuffix(r: string, m: nat)
    requires IsNormal(r) && m < |r| && !IsSpace(r[m])
    ensures IsNormal(r[m..])
  {
    var t := r[m..];
    forall i | 0 <= i < |t|
      ensures NormalAt(t, i)
    {
      assert t[i] == r[m + i];
      assert NormalAt(r, m + i);
    }
  }

  lemma LowerOfLowerCase(r: string)
    requires forall i :: 0 <= i < |r| ==> !IsUpper(r[i])
    ensures Lower(r) == r
  {
  }

  lemma LowerOfNormal(r: string)
    requires IsNormal(r)
    ensures Lower(r) == r
  {
    forall i | 0 <= i < |r| ensures !IsUpper(r[i]) {
      assert NormalAt(r, i);
    }
    LowerOfLowerCase(r);
  }

  /** Normalising twice is the same as normalising once. */
  lemma NormalizeIdempotent(s: string)
    ensures Normalize(Normalize(s)) == Normalize(s)
  {
    var ws := Words(Lower(s));
    NormalizeIsNormal(s);
    LowerOfNormal(Normalize(s));
    WordsAreWords(Lower(s));
    WordsOfJoin(ws);
  }

  /** A normalised string is the join of its own words. */
  lemma {:induction false} JoinOfWordsOfNormal(r: string)
    requires IsNormal(r)
    ensures Join(Words(r)) == r
    decreases |r|
  {
    if r != [] {
      var n := WordLen(r);
      if n == |r| {
        assert NormalAt(r, 0);
        assert r[..n] == r && r[n..] == [];
      } else {
        var rest := r[n + 1..];
        NormalWordThenSpace(r);
        JoinOfWordsOfNormal(rest);
        JoinCons(r[..n], Words(rest));
        assert r == r[..n] + " " + rest;
      }
    }
  }

  /**
   * In a normalised string, a first word that does not reach the end is
   * followed by a single space and a normalised, non-empty rest.
   */
  lemma NormalWordThenSpace(r: string)
    requires IsNormal(r) && WordLen(r) < |r|
    ensures var n := WordLen(r);
      && 0 < n && n + 1 < |r| && r[n] == ' '
      && IsNormal(r[n + 1..])
      && Words(r) == [r[..n]] + Words(r[n + 1..])
      && Words(r[n + 1..]) != []
  {
    var n := WordLen(r);
    assert NormalAt(r, 0);
    assert NormalAt(r, n);
    NormalSuffix(r, n + 1);
    WordsAtSpace(r, n);
    assert WordLen(r[n + 1..]) > 0;
  }

  /** The fixed points of `Normalize` are exactly the normalised strings. */
  lemma NormalizeFixedPoint(r: string)
    ensures Normalize(r) == r <==> IsNormal(r)
  {
    NormalizeIsNormal(r);
    if IsNormal(r) {
      LowerOfNormal(r);
      JoinOfWordsOfNormal(r);
    }
  }

  /** Surrounding whitespace and case do not matter: " Paris " matches "paris". */
  lemma ParisExample()
    ensures AnswersMatch(Some(" Paris "), Some("paris"))
  {
    PaddedParis();
    PlainParis();
  }

  lemma PaddedParis()
    ensures Normalize(" Paris ") == "paris"
  {
    LowerPaddedParis();
    WordsOfPaddedParis();
  }

  lemma WordsOfPaddedParis()
    ensures Words(" paris ") == ["paris"]
  {
    assert " paris " == " " + ("paris" + " ");
    WordsAfterSpace("paris" + " ");
    ParisIsWord();
    WordsOfWordThen("paris", " ");
    assert " " == " " + [];
    WordsAfterSpace([]);
  }

  lemma ParisIsWord()
    ensures IsWord("paris")
  {
    assert "paris" == ['p', 'a', 'r', 'i', 's'];
  }

  lemma LowerPaddedParis()
    ensures Lower(" Paris ") == " paris "
  {
    assert LowerChar('P') == 'p';
  }

  lemma PlainParis()
    ensures Normalize("paris") == "paris"
  {
    LowerOfLowerCase("paris");
    WordsOfWordThen("paris", []);
    assert "paris" + [] == "paris";
  }

  /** There is no numeric coercion: "12" does not match "12.0". */
  lemma NoNumericCoercion()
    ensures !AnswersMatch(Some("12"), Some("12.0"))
  {
    NormalizeFixedPoint("12");
    NormalizeFixedPoint("12.0");
  }

  /** A missing gold answer is compared as the text "none". */
  lemma MissingGoldIsNone(pred: Option<string>)
    ensures AnswersMatch(None, pred) <==> Normalize(PyStr(pred)) == "none"
  {
    assert Lower("None") == "none";
    WordsOfWordThen("none", []);
    assert "none" + [] == "none";
  }
}
