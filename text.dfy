/** The string operations the services rely on: Python's `str.split()` with no
    separator, `' '.join(parts)`, `str.strip()` emptiness and the substring test `sub in s`. */
module Text {

  /** The characters Python's `str.isspace` accepts, which `split()` and `strip()` cut on. */
  predicate IsSpace(c: char)
  {
    ('\U{0009}' <= c <= '\U{000D}') || ('\U{001C}' <= c <= '\U{0020}')
    || c == '\U{0085}' || c == '\U{00A0}' || c == '\U{1680}'
    || ('\U{2000}' <= c <= '\U{200A}') || c == '\U{2028}' || c == '\U{2029}'
    || c == '\U{202F}' || c == '\U{205F}' || c == '\U{3000}'
  }

  /** A field `split()` can produce: non-empty and free of whitespace. */
  predicate IsWord(w: string)
  {
    |w| > 0 && forall i :: 0 <= i < |w| ==> !IsSpace(w[i])
  }

  /** `s.strip()` is empty: every character is whitespace. */
  predicate IsBlank(s: string)
  {
    forall i :: 0 <= i < |s| ==> IsSpace(s[i])
  }

  /** `s` without its leading whitespace. */
  function TrimStart(s: string): string
  {
    if s != [] && IsSpace(s[0]) then TrimStart(s[1..]) else s
  }

  /** What is left after trimming is a suffix of `s`. */
  lemma {:induction false} TrimStartSuffix(s: string)
    ensures |TrimStart(s)| <= |s| && TrimStart(s) == s[|s| - |TrimStart(s)|..]
  {
    if s != [] && IsSpace(s[0]) {
      var t := TrimStart(s[1..]);
      TrimStartSuffix(s[1..]);
      assert s[1..][|s| - 1 - |t|..] == s[|s| - |t|..];
    }
  }

  /** What is left after trimming is empty or starts with a non-whitespace character. */
  lemma {:induction false} TrimStartStops(s: string)
    ensures TrimStart(s) == [] || !IsSpace(TrimStart(s)[0])
  {
    if s != [] && IsSpace(s[0]) {
      TrimStartStops(s[1..]);
    }
  }

  /** What trimming removes is whitespace. */
  lemma {:induction false} TrimStartRemovesSpace(s: string)
    ensures forall i :: 0 <= i < |s| - |TrimStart(s)| ==> IsSpace(s[i])
  {
    if s != [] && IsSpace(s[0]) {
      TrimStartRemovesSpace(s[1..]);
      forall i | 0 <= i < |s| - |TrimStart(s)| ensures IsSpace(s[i]) {
        if i > 0 {
          assert s[i] == s[1..][i - 1];
        }
      }
    }
  }

  /** The longest prefix of `s` that holds no whitespace. */
  function LeadingWord(s: string): string
  {
    if s == [] || IsSpace(s[0]) then [] else [s[0]] + LeadingWord(s[1..])
  }

  /** The leading word is a whitespace-free prefix that stops at whitespace or at the end,
      and is non-empty when `s` starts with a non-whitespace character. */
  lemma {:induction false} LeadingWordFacts(s: string)
    ensures |LeadingWord(s)| <= |s| && LeadingWord(s) == s[..|LeadingWord(s)|]
    ensures forall i :: 0 <= i < |LeadingWord(s)| ==> !IsSpace(LeadingWord(s)[i])
    ensures |LeadingWord(s)| == |s| || IsSpace(s[|LeadingWord(s)|])
    ensures s != [] && !IsSpace(s[0]) ==> |LeadingWord(s)| > 0
  {
    if s != [] && !IsSpace(s[0]) {
      LeadingWordFacts(s[1..]);
      var w := LeadingWord(s[1..]);
      assert LeadingWord(s) == [s[0]] + w;
      forall i | 0 <= i < |LeadingWord(s)| ensures !IsSpace(LeadingWord(s)[i]) {
        if i > 0 {
          assert LeadingWord(s)[i] == w[i - 1];
        }
      }
    }
  }

  /** `s.split()`: the maximal runs of non-whitespace characters, in order. */
  function Split(s: string): seq<string>
    decreases |s|
  {
    var t := TrimStart(s);
    if t == [] then []
    else
      var w := LeadingWord(t);
      TrimStartSuffix(s);
      TrimStartStops(s);
      LeadingWordFacts(t);
      [w] + Split(t[|w|..])
  }

  /** Every field of `split()` is non-empty and free of whitespace. */
  lemma {:induction false} SplitWords(s: string)
    ensures forall k :: 0 <= k < |Split(s)| ==> IsWord(Split(s)[k])
    decreases |s|
  {
    var t := TrimStart(s);
    if t != [] {
      TrimStartSuffix(s);
      TrimStartStops(s);
      var w := LeadingWord(t);
      LeadingWordFacts(t);
      var rest := t[|w|..];
      SplitWords(rest);
      forall k | 0 <= k < |Split(s)| ensures IsWord(Split(s)[k]) {
        if k > 0 {
          assert Split(s)[k] == Split(rest)[k - 1];
        }
      }
    }
  }

  /** `' '.join(words)`. */
  function Join(words: seq<string>): string
  {
    if |words| == 0 then ""
    else if |words| == 1 then words[0]
    else words[0] + " " + Join(words[1..])
  }

  /** `sub in s` for strings: `sub` occurs somewhere in `s` as a contiguous block. */
  predicate Contains(s: string, sub: string)
    ensures Contains(s, sub) <==> exists i :: 0 <= i <= |s| - |sub| && OccursAt(s, sub, i)
  {
    if |sub| > |s| then false
    else if s[..|sub|] == sub then assert OccursAt(s, sub, 0); true
    else ShiftOccurrences(s, sub); Contains(s[1..], sub)
  }

  predicate OccursAt(s: string, sub: string, i: int)
    requires 0 <= i <= |s| - |sub|
  {
    s[i..i + |sub|] == sub
  }

  /** An occurrence past the first position of `s` is an occurrence in `s[1..]`, shifted by one. */
  lemma ShiftOccurrences(s: string, sub: string)
    requires 0 < |s| && |sub| <= |s|
    ensures (exists i :: 0 <= i <= |s| - |sub| && OccursAt(s, sub, i))
        <==> (OccursAt(s, sub, 0) || exists j :: 0 <= j <= |s| - 1 - |sub| && OccursAt(s[1..], sub, j))
  {
    forall j | 0 <= j <= |s| - 1 - |sub|
      ensures OccursAt(s[1..], sub, j) <==> OccursAt(s, sub, j + 1)
    {
      assert s[1..][j..j + |sub|] == s[j + 1..j + 1 + |sub|];
    }
    if i :| 1 <= i <= |s| - |sub| && OccursAt(s, sub, i) {
      assert OccursAt(s[1..], sub, i - 1);
    }
  }

  /** Whitespace alone splits into no fields. */
  lemma SplitBlank(s: string)
    requires IsBlank(s)
    ensures Split(s) == []
  {
    TrimStartBlank(s);
  }

  /** Trimming whitespace alone leaves nothing. */
  lemma {:induction false} TrimStartBlank(s: string)
    requires IsBlank(s)
    ensures TrimStart(s) == []
  {
    if s != [] {
      assert IsSpace(s[0]);
      TrimStartBlank(s[1..]);
    }
  }

  /** One step of `split()` on text that starts with a field. */
  lemma SplitStep(s: string)
    requires s != [] && !IsSpace(s[0])
    ensures |LeadingWord(s)| <= |s| && Split(s) == [LeadingWord(s)] + Split(s[|LeadingWord(s)|..])
  {
    assert TrimStart(s) == s;
    LeadingWordFacts(s);
  }

  /** `split()` ignores leading whitespace. */
  lemma SplitSkipSpace(s: string)
    requires s != [] && IsSpace(s[0])
    ensures Split(s) == Split(s[1..])
  {
    assert TrimStart(s) == TrimStart(s[1..]);
  }

  /** Joining fields with single spaces and splitting again gives back the fields. */
  lemma {:induction false} SplitJoin(words: seq<string>)
    requires forall k :: 0 <= k < |words| ==> IsWord(words[k])
    ensures Split(Join(words)) == words
    decreases |words|
  {
    if |words| == 1 {
      SplitJoinSingle(words[0]);
    } else if |words| > 1 {
      var rest := words[1..];
      SplitJoin(rest);
      SplitJoinCons(words[0], rest);
      assert words == [words[0]] + rest;
    }
  }

  /** A single field splits into itself. */
  lemma SplitJoinSingle(w: string)
    requires IsWord(w)
    ensures Split(Join([w])) == [w]
  {
    SplitWordThen(w, "");
    assert w + "" == w;
  }

  /** One more field in front of a non-empty join becomes one more field in front of its split. */
  lemma SplitJoinCons(w: string, rest: seq<string>)
    requires IsWord(w) && |rest| > 0
    ensures Split(Join([w] + rest)) == [w] + Split(Join(rest))
  {
    JoinCons(w, rest);
    SplitWordSpace(w, Join(rest));
  }

  /** `' '.join` puts one space between the first word and the join of the rest. */
  lemma JoinCons(w: string, rest: seq<string>)
    requires |rest| > 0
    ensures Join([w] + rest) == w + " " + Join(rest)
  {
    assert ([w] + rest)[1..] == rest;
  }

  /** A field, a space and any text: the field, then the fields of the text. */
  lemma SplitWordSpace(w: string, u: string)
    requires IsWord(w)
    ensures Split(w + " " + u) == [w] + Split(u)
  {
    assert w + " " + u == w + (" " + u);
    SplitWordThen(w, " " + u);
    SplitSkipSpace(" " + u);
    assert (" " + u)[1..] == u;
  }

  /** A field followed by nothing or by whitespace splits off as the first field. */
  lemma SplitWordThen(w: string, tail: string)
    requires IsWord(w)
    requires tail == [] || IsSpace(tail[0])
    ensures Split(w + tail) == [w] + Split(tail)
  {
    assert (w + tail)[0] == w[0];
    LeadingWordOf(w, tail);
    SplitStep(w + tail);
    assert (w + tail)[|w|..] == tail;
  }

  /** The leading field of `w + tail` is `w` when `tail` is empty or begins with whitespace. */
  lemma {:induction false} LeadingWordOf(w: string, tail: string)
    requires forall i :: 0 <= i < |w| ==> !IsSpace(w[i])
    requires tail == [] || IsSpace(tail[0])
    ensures LeadingWord(w + tail) == w
    decreases |w|
  {
    if w == [] {
    } else {
      assert (w + tail)[1..] == w[1..] + tail;
      LeadingWordOf(w[1..], tail);
    }
  }
}
