/**
 * `capitalize` of src/utils/strings/index.ts: split on single spaces, upper-case the first
 * character of each word and lower-case the rest, join with single spaces.
 * Case mapping is ASCII only.
 */
module Strings {

  import opened Options

  const Space: char := ' '

  function ToUpper(c: char): char {
    if 'a' <= c <= 'z' then (c as int - 32) as char else c
  }

  function ToLower(c: char): char {
    if 'A' <= c <= 'Z' then (c as int + 32) as char else c
  }

  /** `s.split(' ')`: always at least one word, and no word holds a space. */
  function Split(s: string): (words: seq<string>)
    ensures |words| >= 1
    ensures forall k :: 0 <= k < |words| ==> Space !in words[k]
  {
    if s == [] then [[]]
    else
      var rest := Split(s[1..]);
      if s[0] == Space then [[]] + rest
      else [[s[0]] + rest[0]] + rest[1..]
  }

  /** `words.join(' ')`. */
  function Join(words: seq<string>): string
    requires |words| >= 1
  {
    if |words| == 1 then words[0] else words[0] + [Space] + Join(words[1..])
  }

  function LowerAll(w: string): string {
    seq(|w|, i requires 0 <= i < |w| => ToLower(w[i]))
  }

  /** `word ? word[0].toUpperCase() + word.slice(1).toLowerCase() : ''`. */
  function CapitalizeWord(w: string): string {
    if w == [] then [] else [ToUpper(w[0])] + LowerAll(w[1..])
  }

  function CapitalizeWords(words: seq<string>): (r: seq<string>)
    ensures |r| == |words|
  {
    if words == [] then [] else [CapitalizeWord(words[0])] + CapitalizeWords(words[1..])
  }

  /** `capitalize(str)`; `None` stands for an absent (`undefined` or `null`) argument. */
  function Capitalize(str: Option<string>): string {
    var s := if str.Some? then str.value else "";
    Join(CapitalizeWords(Split(s)))
  }

  /** Character `i` of the capitalized text, stated on the input alone. */
  function CapitalizedAt(s: string, i: nat): char
    requires i < |s|
  {
    if s[i] == Space then Space
    else if i == 0 || s[i - 1] == Space then ToUpper(s[i])
    else ToLower(s[i])
  }

  predicate NoSpaces(words: seq<string>) {
    forall k :: 0 <= k < |words| ==> Space !in words[k]
  }

  // ----- split and join are inverse -----

  lemma {:induction false} SplitThenJoin(s: string)
    ensures Join(Split(s)) == s
  {
    if s != [] {
      SplitThenJoin(s[1..]);
      var rest := Split(s[1..]);
      if s[0] == Space {
        assert ([[]] + rest)[1..] == rest;
      } else if |rest| > 1 {
        assert ([[s[0]] + rest[0]] + rest[1..])[1..] == rest[1..];
      }
    }
  }

  lemma {:induction false} SplitWord(w: string)
    requires Space !in w
    ensures Split(w) == [w]
  {
    if w != [] {
      SplitWord(w[1..]);
      assert [w[0]] + w[1..] == w;
    }
  }

  lemma {:induction false} SplitWordThenRest(w: string, t: string)
    requires Space !in w
    ensures Split(w + [Space] + t) == [w] + Split(t)
  {
    if w == [] {
      assert w + [Space] + t == [Space] + t;
      assert ([Space] + t)[1..] == t;
    } else {
      assert (w + [Space] + t)[1..] == w[1..] + [Space] + t;
      SplitWordThenRest(w[1..], t);
      assert [w[0]] + w[1..] == w;
    }
  }

  /** Joining words that hold no space and splitting again gives the words back. */
  lemma {:induction false} JoinThenSplit(words: seq<string>)
    requires |words| >= 1 && NoSpaces(words)
    ensures Split(Join(words)) == words
  {
    if |words| == 1 {
      SplitWord(words[0]);
    } else {
      JoinThenSplit(words[1..]);
      SplitWordThenRest(words[0], Join(words[1..]));
      assert [words[0]] + words[1..] == words;
    }
  }

  // ----- the character-level reading of capitalize -----

  lemma {:induction false} CapitalizeWordAt(w: string)
    requires Space !in w
    ensures |CapitalizeWord(w)| == |w|
    ensures forall i :: 0 <= i < |w| ==> CapitalizeWord(w)[i] == (if i == 0 then ToUpper(w[0]) else ToLower(w[i]))
    ensures Space !in CapitalizeWord(w)
  {
  }

  lemma {:induction false} CapitalizeWordsNoSpaces(words: seq<string>)
    requires NoSpaces(words)
    ensures NoSpaces(CapitalizeWords(words))
  {
    if words != [] {
      CapitalizeWordAt(words[0]);
      CapitalizeWordsNoSpaces(words[1..]);
    }
  }

  lemma {:induction false} JoinCapitalizedAt(words: seq<string>)
    requires |words| >= 1 && NoSpaces(words)
    ensures |Join(CapitalizeWords(words))| == |Join(words)|
    ensures forall i :: 0 <= i < |Join(words)| ==>
      Join(CapitalizeWords(words))[i] == CapitalizedAt(Join(words), i)
  {
    var w := words[0];
    CapitalizeWordAt(w);
    if |words| > 1 {
      var rest := words[1..];
      JoinCapitalizedAt(rest);
      var t, tail := Join(words), Join(rest);
      var r, rtail := Join(CapitalizeWords(words)), Join(CapitalizeWords(rest));
      assert CapitalizeWords(words)[1..] == CapitalizeWords(rest);
      assert t == w + [Space] + tail;
      assert r == CapitalizeWord(w) + [Space] + rtail;
      forall i | 0 <= i < |t|
        ensures r[i] == CapitalizedAt(t, i)
      {
        if i > |w| {
          var j := i - |w| - 1;
          assert t[i] == tail[j] && r[i] == rtail[j];
          assert t[i - 1] == if j == 0 then Space else tail[j - 1];
        }
      }
    }
  }

  /** Each output character is determined by the input character and its left neighbour. */
  lemma {:induction false} CapitalizeAt(s: string)
    ensures |Capitalize(Some(s))| == |s|
    ensures forall i :: 0 <= i < |s| ==> Capitalize(Some(s))[i] == CapitalizedAt(s, i)
  {
    SplitThenJoin(s);
    JoinCapitalizedAt(Split(s));
  }

  // ----- the properties capitalize promises -----

  lemma CapitalizeEmpty()
    ensures Capitalize(None) == ""
    ensures Capitalize(Some("")) == ""
  {
  }

  /** Length is kept and the spaces stay where they were. */
  lemma {:induction false} CapitalizeKeepsSpaces(s: string)
    ensures |Capitalize(Some(s))| == |s|
    ensures forall i :: 0 <= i < |s| ==> (Capitalize(Some(s))[i] == Space <==> s[i] == Space)
  {
    CapitalizeAt(s);
  }

  /** A word whose first character is upper case and whose other characters are lower case. */
  predicate IsCapitalizedWord(w: string) {
    w != [] ==> ToUpper(w[0]) == w[0] && forall j :: 1 <= j < |w| ==> ToLower(w[j]) == w[j]
  }

  lemma CapitalizeWordShape(w: string)
    ensures IsCapitalizedWord(CapitalizeWord(w))
  {
  }

  /**
   * The output splits into as many words as the input, each of the same length; in each
   * non-empty word the first character is upper case and the others lower case.
   */
  lemma {:induction false} CapitalizeWordShapes(s: string)
    ensures |Split(Capitalize(Some(s)))| == |Split(s)|
    ensures forall k :: 0 <= k < |Split(s)| ==> |Split(Capitalize(Some(s)))[k]| == |Split(s)[k]|
    ensures forall k :: 0 <= k < |Split(s)| ==> IsCapitalizedWord(Split(Capitalize(Some(s)))[k])
  {
    var words := Split(s);
    var caps := CapitalizeWords(words);
    CapitalizeWordsNoSpaces(words);
    JoinThenSplit(caps);
    assert Split(Capitalize(Some(s))) == caps;
    forall k | 0 <= k < |words|
      ensures |caps[k]| == |words[k]| && IsCapitalizedWord(caps[k])
    {
      CapitalizeWordsAt(words, k);
      CapitalizeWordAt(words[k]);
      CapitalizeWordShape(words[k]);
    }
  }

  lemma {:induction false} CapitalizeWordsAt(words: seq<string>, k: nat)
    requires k < |words|
    ensures CapitalizeWords(words)[k] == CapitalizeWord(words[k])
  {
    if k > 0 {
      CapitalizeWordsAt(words[1..], k - 1);
    }
  }

  /** Changing case twice the same way is changing it once, and spaces are never changed. */
  lemma CaseIdempotent(c: char)
    ensures ToUpper(ToUpper(c)) == ToUpper(c) && ToLower(ToLower(c)) == ToLower(c)
    ensures (ToUpper(c) == Space <==> c == Space) && (ToLower(c) == Space <==> c == Space)
  {
  }

  lemma {:induction false} CapitalizeIdempotent(s: string)
    ensures Capitalize(Some(Capitalize(Some(s)))) == Capitalize(Some(s))
  {
    var r := Capitalize(Some(s));
    CapitalizeAt(s);
    CapitalizeAt(r);
    var r2 := Capitalize(Some(r));
    forall i | 0 <= i < |s|
      ensures r2[i] == r[i]
    {
      assert r2[i] == CapitalizedAt(r, i);
      assert r[i] == CapitalizedAt(s, i);
      CaseIdempotent(s[i]);
      if i > 0 {
        assert r[i - 1] == CapitalizedAt(s, i - 1);
        CaseIdempotent(s[i - 1]);
      }
    }
  }
}
