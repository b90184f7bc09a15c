// Topic patterns: section 3.1.3.3 of AMQP 0-9-1.
module Topics {
  import Text

  /** The dot-delimited words of a routing key or pattern; none at all in the empty one. */
  function Words(s: string): seq<string> {
    if s == "" then [] else Text.Split(s, '.')
  }

  /** "*" stands for exactly one word, "#" for any number of them, any other word for itself. */
  predicate MatchWords(pattern: seq<string>, key: seq<string>)
    decreases |pattern| + |key|
  {
    if pattern == [] then key == []
    else if pattern[0] == "#" then
      MatchWords(pattern[1..], key) || (key != [] && MatchWords(pattern, key[1..]))
    else
      key != [] && (pattern[0] == "*" || pattern[0] == key[0]) && MatchWords(pattern[1..], key[1..])
  }

  predicate Matches(pattern: string, key: string) {
    MatchWords(Words(pattern), Words(key))
  }

  // ------------------------------------------------ what matching means

  function Sum(spans: seq<nat>): nat {
    if spans == [] then 0 else spans[0] + Sum(spans[1..])
  }

  /** The key falls into consecutive spans, one for each word of the pattern, each of a length that word stands for. */
  ghost predicate Covers(pattern: seq<string>, key: seq<string>, spans: seq<nat>)
    decreases |pattern|
  {
    && |spans| == |pattern|
    && Sum(spans) == |key|
    && (pattern != [] ==>
          && spans[0] <= |key|
          && (pattern[0] != "#" ==> spans[0] == 1)
          && (pattern[0] != "#" && pattern[0] != "*" ==> key[0] == pattern[0])
          && Covers(pattern[1..], key[spans[0]..], spans[1..]))
  }

  lemma {:induction false} MatchGivesSpans(pattern: seq<string>, key: seq<string>) returns (spans: seq<nat>)
    requires MatchWords(pattern, key)
    ensures Covers(pattern, key, spans)
    decreases |pattern| + |key|
  {
    if pattern == [] {
      spans := [];
    } else if pattern[0] == "#" {
      if MatchWords(pattern[1..], key) {
        var rest := MatchGivesSpans(pattern[1..], key);
        spans := [0] + rest;
        assert spans[1..] == rest && key[0..] == key;
      } else {
        var rest := MatchGivesSpans(pattern, key[1..]);
        spans := [rest[0] + 1] + rest[1..];
        assert spans[1..] == rest[1..];
        assert key[1..][rest[0]..] == key[rest[0] + 1..];
      }
    } else {
      var rest := MatchGivesSpans(pattern[1..], key[1..]);
      spans := [1] + rest;
      assert spans[1..] == rest;
    }
  }

  lemma {:induction false} SpansGiveMatch(pattern: seq<string>, key: seq<string>, spans: seq<nat>)
    requires Covers(pattern, key, spans)
    ensures MatchWords(pattern, key)
    decreases |pattern| + |key|
  {
    if pattern != [] {
      if pattern[0] == "#" && spans[0] > 0 {
        var fewer := [spans[0] - 1] + spans[1..];
        assert fewer[1..] == spans[1..];
        assert key[1..][spans[0] - 1..] == key[spans[0]..];
        SpansGiveMatch(pattern, key[1..], fewer);
      } else {
        SpansGiveMatch(pattern[1..], key[spans[0]..], spans[1..]);
        assert key[0..] == key;
      }
    }
  }

  ghost predicate Divides(pattern: seq<string>, key: seq<string>, spans: seq<nat>) {
    Covers(pattern, key, spans)
  }

  /** The recursive matcher accepts exactly the keys that can be divided among the pattern's words. */
  lemma MatchIffSpans(pattern: seq<string>, key: seq<string>)
    ensures MatchWords(pattern, key) <==> exists spans: seq<nat> :: Divides(pattern, key, spans)
  {
    if MatchWords(pattern, key) {
      var spans := MatchGivesSpans(pattern, key);
      assert Divides(pattern, key, spans);
    } else if exists spans: seq<nat> :: Divides(pattern, key, spans) {
      var spans: seq<nat> :| Divides(pattern, key, spans);
      SpansGiveMatch(pattern, key, spans);
    }
  }

  lemma WordsOfJoin(words: seq<string>)
    requires words != [] && words != [""] && forall i :: 0 <= i < |words| ==> '.' !in words[i]
    ensures Words(Text.Join(words, '.')) == words
  {
    Text.SplitOfJoin(words, '.');
    assert Text.Split("", '.') == [""];
  }

  /** In text: a key of words joined by dots matches a pattern of words joined by dots exactly then. */
  lemma DottedMatchIffSpans(pattern: seq<string>, key: seq<string>)
    requires pattern != [] && pattern != [""] && key != [] && key != [""]
    requires forall i :: 0 <= i < |pattern| ==> '.' !in pattern[i]
    requires forall i :: 0 <= i < |key| ==> '.' !in key[i]
    ensures Matches(Text.Join(pattern, '.'), Text.Join(key, '.')) <==>
            exists spans: seq<nat> :: Divides(pattern, key, spans)
  {
    WordsOfJoin(pattern);
    WordsOfJoin(key);
    MatchIffSpans(pattern, key);
  }

  lemma {:induction false} WordsMatchThemselves(words: seq<string>)
    ensures MatchWords(words, words)
  {
    if words != [] {
      WordsMatchThemselves(words[1..]);
      if words[0] == "#" { assert MatchWords(words, words[1..]); }
    }
  }

  /** Every pattern, wildcards and all, matches itself read as a key. */
  lemma PatternMatchesItself(pattern: string)
    ensures Matches(pattern, pattern)
  {
    WordsMatchThemselves(Words(pattern));
  }
}
