/** Stripping, splitting and joining text. Case mapping covers the ASCII letters; white space is the
    ASCII white space characters. */
module Text {
  import opened Sequences

  predicate Space(c: char) {
    c == ' ' || '\t' <= c <= '\r' || '\U{1c}' <= c <= '\U{1f}'
  }

  function LowerChar(c: char): char {
    if 'A' <= c <= 'Z' then c - 'A' + 'a' else c
  }

  function Lower(s: string): string {
    seq(|s|, i requires 0 <= i < |s| => LowerChar(s[i]))
  }

  function StripLeft(s: string): (r: string)
    ensures |r| <= |s| && (r == "" || !Space(r[0]))
    ensures s != "" && !Space(s[0]) ==> r == s
  {
    if s != "" && Space(s[0]) then StripLeft(s[1..]) else s
  }

  function StripRight(s: string): (r: string)
    ensures r <= s && (r == "" || !Space(r[|r| - 1]))
    ensures s != "" && !Space(s[|s| - 1]) ==> r == s
  {
    if s != "" && Space(s[|s| - 1]) then StripRight(s[..|s| - 1]) else s
  }

  function Strip(s: string): string {
    StripRight(StripLeft(s))
  }

  /** Stripping takes the white space off both ends and nothing else. */
  lemma StripExactly(s: string) returns (from: nat, to: nat)
    ensures from <= to <= |s| && Strip(s) == s[from..to]
    ensures forall i :: 0 <= i < from || to <= i < |s| ==> s[i] == ' ' || 9 <= s[i] as int <= 13 || 28 <= s[i] as int <= 31
    ensures from < to ==> !(s[from] == ' ' || 9 <= s[from] as int <= 13 || 28 <= s[from] as int <= 31)
    ensures from < to ==> !(s[to - 1] == ' ' || 9 <= s[to - 1] as int <= 13 || 28 <= s[to - 1] as int <= 31)
  {
    from := LeftEnd(s);
    var length := RightEnd(s[from..]);
    to := from + length;
    assert s[from..][..to - from] == s[from..to];
    forall i | to <= i < |s| ensures Space(s[i]) {
      assert s[i] == s[from..][i - from];
    }
  }

  lemma {:induction false} LeftEnd(s: string) returns (n: nat)
    ensures n <= |s| && StripLeft(s) == s[n..] && forall i :: 0 <= i < n ==> Space(s[i])
  {
    n := 0;
    if s != "" && Space(s[0]) {
      var m := LeftEnd(s[1..]);
      n := m + 1;
      forall i | 0 <= i < n ensures Space(s[i]) {
        if i > 0 { assert s[i] == s[1..][i - 1]; }
      }
    }
  }

  lemma {:induction false} RightEnd(s: string) returns (n: nat)
    ensures n <= |s| && StripRight(s) == s[..n] && forall i :: n <= i < |s| ==> Space(s[i])
  {
    n := |s|;
    if s != "" && Space(s[|s| - 1]) {
      n := RightEnd(s[..|s| - 1]);
    }
  }

  lemma StripOfStripped(s: string)
    requires s != "" && !Space(s[0]) && !Space(s[|s| - 1])
    ensures Strip(s) == s
  {}

  lemma StripIdempotent(s: string)
    ensures Strip(Strip(s)) == Strip(s)
  {
    var left := StripLeft(s);
    if Strip(s) != "" {
      assert Strip(s)[0] == left[0];
    }
  }

  predicate Word(w: string) {
    w != "" && forall i :: 0 <= i < |w| ==> !Space(w[i])
  }

  function FirstWord(s: string): (w: string)
    ensures w <= s && forall i :: 0 <= i < |w| ==> !Space(w[i])
    ensures |w| < |s| ==> Space(s[|w|])
  {
    if s == "" || Space(s[0]) then "" else [s[0]] + FirstWord(s[1..])
  }

  function Split(s: string): (words: seq<string>)
    ensures forall w :: w in words ==> Word(w)
    decreases |s|
  {
    if s == "" then []
    else if Space(s[0]) then Split(s[1..])
    else [FirstWord(s)] + Split(s[|FirstWord(s)|..])
  }

  function Join(words: seq<string>): string {
    if words == [] then "" else if |words| == 1 then words[0] else words[0] + " " + Join(words[1..])
  }

  lemma {:induction false} SplitWord(w: string, rest: string)
    requires Word(w) && (rest == "" || Space(rest[0]))
    ensures FirstWord(w + rest) == w
    ensures Split(w + rest) == [w] + Split(rest)
  {
    FirstWordOf(w, rest);
    assert (w + rest)[|w|..] == rest;
  }

  lemma {:induction false} FirstWordOf(w: string, rest: string)
    requires forall i :: 0 <= i < |w| ==> !Space(w[i])
    requires rest == "" || Space(rest[0])
    ensures FirstWord(w + rest) == w
  {
    if w != "" {
      assert (w + rest)[1..] == w[1..] + rest;
      FirstWordOf(w[1..], rest);
    } else {
      assert w + rest == rest;
    }
  }

  /** Joining words and splitting again gives the words back. */
  lemma {:induction false} SplitJoin(words: seq<string>)
    requires forall w :: w in words ==> Word(w)
    ensures Split(Join(words)) == words
  {
    if words != [] {
      if |words| == 1 {
        SplitWord(words[0], "");
        assert words[0] + "" == words[0];
      } else {
        var rest := " " + Join(words[1..]);
        SplitWord(words[0], rest);
        assert words[0] + rest == Join(words);
        assert rest[1..] == Join(words[1..]);
        SplitJoin(words[1..]);
      }
    }
  }

  /** Joined words have no outer white space. */
  lemma {:induction false} JoinedIsStripped(words: seq<string>)
    requires forall w :: w in words ==> Word(w)
    ensures Strip(Join(words)) == Join(words)
    ensures words != [] ==> Join(words) != "" && !Space(Join(words)[0]) && !Space(Join(words)[|Join(words)| - 1])
  {
    if |words| == 1 {
      assert words[0] in words;
    } else if |words| > 1 {
      JoinedIsStripped(words[1..]);
      assert words[0] in words;
      assert Join(words) == words[0] + " " + Join(words[1..]);
    }
  }

  lemma {:induction false} SplitChars(s: string, c: char)
    ensures (exists w :: w in Split(s) && c in w) ==> c in s
    decreases |s|
  {
    if s != "" {
      if Space(s[0]) {
        SplitChars(s[1..], c);
      } else {
        SplitChars(s[|FirstWord(s)|..], c);
      }
    }
  }

  lemma {:induction false} JoinChars(words: seq<string>, c: char)
    requires c in Join(words)
    ensures c == ' ' || exists w :: w in words && c in w
  {
    if |words| > 1 {
      if c !in words[0] && c != ' ' {
        assert c in Join(words[1..]);
        JoinChars(words[1..], c);
      }
    } else if |words| == 1 {
      assert words[0] in words;
    }
  }

  /** First occurrences of the non-empty values, in order. */
  function Deduped(values: seq<string>): (kept: seq<string>)
    ensures Distinct(kept) && "" !in kept
    ensures forall v :: v in kept <==> v in values && v != ""
  {
    if values == [] then []
    else
      var init, last := Deduped(values[..|values| - 1]), values[|values| - 1];
      assert values == values[..|values| - 1] + [last];
      if last == "" || last in init then init else init + [last]
  }

  /** `kept` are the first occurrences of the non-empty values, in order: `at` says where each one is,
      and no value is missing. */
  ghost predicate Picks(values: seq<string>, kept: seq<string>, at: seq<nat>) {
    && |at| == |kept|
    && (forall j, k :: 0 <= j < k < |at| ==> at[j] < at[k])
    && (forall k :: 0 <= k < |at| ==> at[k] < |values| && values[at[k]] == kept[k] && kept[k] != "")
    && (forall k, i :: 0 <= k < |at| && 0 <= i < at[k] && i < |values| ==> values[i] != kept[k])
    && forall i :: 0 <= i < |values| ==> values[i] == "" || values[i] in kept
  }

  /** The list holds the non-empty texts, in their order, each once. */
  ghost predicate PickedFrom(texts: seq<string>, list: seq<string>) {
    exists at :: Picks(texts, list, at)
  }

  lemma {:induction false} DedupedPicks(values: seq<string>) returns (at: seq<nat>)
    ensures Picks(values, Deduped(values), at)
  {
    if values == [] {
      at := [];
    } else {
      var init, last := values[..|values| - 1], values[|values| - 1];
      var kept := Deduped(init);
      at := DedupedPicks(init);
      assert forall i :: 0 <= i < |init| ==> values[i] == init[i];
      if last != "" && last !in kept {
        at := at + [|values| - 1];
        assert Deduped(values) == kept + [last];
        assert forall i :: 0 <= i < |init| ==> init[i] == "" || init[i] in kept;
      } else {
        assert Deduped(values) == kept;
      }
    }
  }

  lemma {:induction false} DedupedIsFixed(values: seq<string>)
    requires Distinct(values) && "" !in values
    ensures Deduped(values) == values
  {
    if values != [] {
      var init := values[..|values| - 1];
      DedupedIsFixed(init);
      assert values == init + [values[|values| - 1]];
    }
  }
}
