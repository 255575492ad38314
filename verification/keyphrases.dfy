/** Turning the keyphrase text box into the list of keyphrases to classify: split the
    text into lines, drop repeated lines keeping the first occurrence (`dict.fromkeys`),
    drop empty lines (`filter(None, ...)`), and keep at most `MaxLines` of them, with a
    notice when lines had to be cut. Nothing else is normalised: a line of blanks is a
    keyphrase like any other. */
module Keyphrases {

  import opened Options
  import Lines

  const DemoMaxLines: nat := 5
  const UnlockedMaxLines: nat := 50

  /** The cap on the number of keyphrases: 5 in demo mode, 50 in unlocked mode. */
  function MaxLines(demo: bool): nat
  {
    if demo then DemoMaxLines else UnlockedMaxLines
  }

  predicate NoDuplicates(s: seq<string>)
  {
    forall i, j | 0 <= i < j < |s| :: s[i] != s[j]
  }

  /** The distinct members of a sequence. */
  function Members(s: seq<string>): set<string>
  {
    set x | x in s
  }

  /** `list(dict.fromkeys(s))` after the keys in `seen` were already inserted: the
      elements of `s` not in `seen`, each kept at its first occurrence. */
  function DedupFrom(s: seq<string>, seen: set<string>): (r: seq<string>)
    ensures NoDuplicates(r)
    ensures forall x :: x in r <==> x in s && x !in seen
  {
    if |s| == 0 then []
    else if s[0] in seen then DedupFrom(s[1..], seen)
    else [s[0]] + DedupFrom(s[1..], seen + {s[0]})
  }

  /** `list(dict.fromkeys(s))`. */
  function Dedup(s: seq<string>): (r: seq<string>)
    ensures NoDuplicates(r)
    ensures forall x :: x in r <==> x in s
  {
    DedupFrom(s, {})
  }

  /** An independent description of deduplication, built from the back: position k of
      `s` survives exactly when `s[k]` does not occur before it. */
  function FirstOccurrences(s: seq<string>): seq<string>
  {
    if |s| == 0 then []
    else
      var init := s[..|s| - 1];
      FirstOccurrences(init) + (if s[|s| - 1] in init then [] else [s[|s| - 1]])
  }

  /** `list(filter(None, s))`: for strings only `""` is falsy, so exactly the empty
      strings go, in order, and a line of blanks stays. */
  function NonEmpty(s: seq<string>): (r: seq<string>)
    ensures "" !in r
    ensures forall x :: x in r <==> x in s && x != ""
    ensures |r| <= |s|
    ensures NoDuplicates(s) ==> NoDuplicates(r)
  {
    if |s| == 0 then []
    else if s[0] == "" then NonEmpty(s[1..])
    else
      var rest := NonEmpty(s[1..]);
      assert NoDuplicates(s) ==> NoDuplicates([s[0]] + rest) by {
        if NoDuplicates(s) {
          forall i, j | 0 <= i < j < |[s[0]] + rest|
            ensures ([s[0]] + rest)[i] != ([s[0]] + rest)[j]
          {
            var y := rest[j - 1];
            assert ([s[0]] + rest)[j] == y;
            if i == 0 {
              assert y in s[1..];
              var k :| 0 <= k < |s| - 1 && s[1..][k] == y;
              assert s[k + 1] == y;
            } else {
              assert ([s[0]] + rest)[i] == rest[i - 1];
            }
          }
        }
      }
      [s[0]] + rest
  }

  /** On one line, filtering keeps a non-empty line and drops `""`. */
  lemma NonEmptySingle(x: string)
    ensures NonEmpty([x]) == if x == "" then [] else [x]
  {
  }

  /** Filtering a concatenation is concatenating the filtered parts; with
      `NonEmptySingle` this fixes the result on every input, so the non-empty lines keep
      their order and their number of occurrences. */
  lemma {:induction false} NonEmptyAppend(a: seq<string>, b: seq<string>)
    ensures NonEmpty(a + b) == NonEmpty(a) + NonEmpty(b)
    decreases |a|
  {
    if |a| == 0 {
      assert a + b == b;
    } else {
      var ab := a + b;
      assert ab[0] == a[0];
      assert ab[1..] == a[1..] + b;
      NonEmptyAppend(a[1..], b);
      if a[0] != "" {
        assert NonEmpty(ab) == [a[0]] + NonEmpty(a[1..] + b);
        assert NonEmpty(a) == [a[0]] + NonEmpty(a[1..]);
      }
    }
  }

  /** The Python slice `s[:n]` for a non-negative `n`. */
  function Take(s: seq<string>, n: nat): (r: seq<string>)
    ensures |r| <= n
    ensures r <= s
    ensures |s| <= n ==> r == s
    ensures |s| > n ==> |r| == n
  {
    if |s| <= n then s else s[..n]
  }

  /** The informational notice shown when lines were cut: it names the cap and, in demo
      mode, suggests switching to unlocked mode. */
  datatype Notice = Notice(limit: nat, suggestUnlock: bool)

  datatype Normalised = Normalised(lines: seq<string>, notice: Option<Notice>)

  /** The keyphrase list the application classifies, and the notice shown with it. */
  function Normalise(text: string, demo: bool): (n: Normalised)
    ensures NoDuplicates(n.lines)
    ensures "" !in n.lines
    ensures |n.lines| <= MaxLines(demo)
    ensures forall x | x in n.lines :: x in Lines.Split(text)
    ensures n.notice.Some? ==> n.notice.value == Notice(MaxLines(demo), demo)
  {
    var distinct := NonEmpty(Dedup(Lines.Split(text)));
    var max := MaxLines(demo);
    Normalised(Take(distinct, max), if |distinct| > max then Some(Notice(max, demo)) else None)
  }

  /** Adding one element at the back of the input adds it at the back of the output,
      unless it was seen already. */
  lemma {:induction false} DedupFromSnoc(s: seq<string>, x: string, seen: set<string>)
    ensures DedupFrom(s + [x], seen) == DedupFrom(s, seen) + (if x in seen || x in s then [] else [x])
    decreases |s|
  {
    var tail := if x in seen || x in s then [] else [x];
    if |s| == 0 {
      assert s + [x] == [x];
      assert DedupFrom([x], seen) == tail;
    } else {
      var t := s + [x];
      assert t[0] == s[0];
      assert t[1..] == s[1..] + [x];
      assert x in s <==> x == s[0] || x in s[1..];
      if s[0] in seen {
        DedupFromSnoc(s[1..], x, seen);
      } else {
        var seen' := seen + {s[0]};
        DedupFromSnoc(s[1..], x, seen');
        assert (x in seen' || x in s[1..]) <==> (x in seen || x in s);
        assert DedupFrom(t, seen) == [s[0]] + DedupFrom(s[1..] + [x], seen');
        assert DedupFrom(s, seen) == [s[0]] + DedupFrom(s[1..], seen');
      }
    }
  }

  /** Deduplication agrees with its reference description. */
  lemma {:induction false} DedupIsFirstOccurrences(s: seq<string>)
    ensures Dedup(s) == FirstOccurrences(s)
    decreases |s|
  {
    if |s| > 0 {
      var init := s[..|s| - 1];
      assert s == init + [s[|s| - 1]];
      DedupIsFirstOccurrences(init);
      DedupFromSnoc(init, s[|s| - 1], {});
    }
  }

  /** Dropping empty strings from a deduplicated list, when the two `seen` sets agree on
      everything but `""`, is deduplicating the list without empty strings. */
  lemma {:induction false} NonEmptyDedupFrom(s: seq<string>, seen1: set<string>, seen2: set<string>)
    requires seen1 - {""} == seen2 - {""}
    ensures NonEmpty(DedupFrom(s, seen1)) == DedupFrom(NonEmpty(s), seen2)
    decreases |s|
  {
    if |s| > 0 {
      if s[0] == "" {
        if s[0] in seen1 {
          NonEmptyDedupFrom(s[1..], seen1, seen2);
        } else {
          NonEmptyDedupFrom(s[1..], seen1 + {s[0]}, seen2);
        }
      } else {
        assert s[0] in seen1 <==> s[0] in seen1 - {""};
        assert s[0] in seen2 <==> s[0] in seen2 - {""};
        assert (seen1 + {s[0]}) - {""} == (seen1 - {""}) + {s[0]};
        assert (seen2 + {s[0]}) - {""} == (seen2 - {""}) + {s[0]};
        if s[0] in seen1 {
          NonEmptyDedupFrom(s[1..], seen1, seen2);
        } else {
          NonEmptyDedupFrom(s[1..], seen1 + {s[0]}, seen2 + {s[0]});
          assert ([s[0]] + DedupFrom(s[1..], seen1 + {s[0]}))[1..] == DedupFrom(s[1..], seen1 + {s[0]});
        }
      }
    }
  }

  /** The order of the two clean-up steps does not matter: empty lines may as well be
      dropped before the duplicates. */
  lemma NonEmptyDedupCommute(s: seq<string>)
    ensures NonEmpty(Dedup(s)) == Dedup(NonEmpty(s))
  {
    NonEmptyDedupFrom(s, {}, {});
  }

  lemma NoMembersIsEmpty(s: seq<string>)
    ensures Members(s) == {} <==> s == []
  {
    if s != [] {
      assert s[0] in Members(s);
    }
  }

  /** A list without repetitions has as many entries as members. */
  lemma {:induction false} DistinctLength(s: seq<string>)
    requires NoDuplicates(s)
    ensures |Members(s)| == |s|
    decreases |s|
  {
    if |s| > 0 {
      DistinctLength(s[1..]);
      assert Members(s) == {s[0]} + Members(s[1..]);
      assert s[0] !in Members(s[1..]);
    }
  }

  /** The distinct non-empty lines of a text. */
  function Candidates(text: string): set<string>
  {
    set x | x in Lines.Split(text) && x != ""
  }

  /** The keyphrase list is a prefix of the text's non-empty lines in first-occurrence
      order, and is all of them when they fit under the cap. */
  lemma NormaliseIsPrefixOfFirstOccurrences(text: string, demo: bool)
    ensures Normalise(text, demo).lines <= FirstOccurrences(NonEmpty(Lines.Split(text)))
    ensures |Candidates(text)| <= MaxLines(demo) ==>
              Normalise(text, demo).lines == FirstOccurrences(NonEmpty(Lines.Split(text)))
  {
    var pieces := Lines.Split(text);
    NonEmptyDedupCommute(pieces);
    DedupIsFirstOccurrences(NonEmpty(pieces));
    CandidatesCount(text);
  }

  /** The number of keyphrases before the cut is the number of distinct non-empty lines. */
  lemma CandidatesCount(text: string)
    ensures |NonEmpty(Dedup(Lines.Split(text)))| == |Candidates(text)|
  {
    var distinct := NonEmpty(Dedup(Lines.Split(text)));
    DistinctLength(distinct);
    assert Members(distinct) == Candidates(text);
  }

  /** The notice appears exactly when the text has more distinct non-empty lines than
      the cap allows. */
  lemma NoticeWhenOverCap(text: string, demo: bool)
    ensures Normalise(text, demo).notice.Some? <==> |Candidates(text)| > MaxLines(demo)
  {
    CandidatesCount(text);
  }

  /** Under the cap, the keyphrases are exactly the non-empty lines of the text; over
      it, exactly the cap's worth of them. */
  lemma NormaliseMembers(text: string, demo: bool)
    ensures |Candidates(text)| <= MaxLines(demo) ==> Members(Normalise(text, demo).lines) == Candidates(text)
    ensures |Candidates(text)| > MaxLines(demo) ==> |Normalise(text, demo).lines| == MaxLines(demo)
    ensures Members(Normalise(text, demo).lines) <= Candidates(text)
  {
    CandidatesCount(text);
    var n := Normalise(text, demo);
    if |Candidates(text)| <= MaxLines(demo) {
      assert Members(n.lines) == Candidates(text);
    }
  }
}
