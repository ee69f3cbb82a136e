/** The keyword filter of `get_articles`: the entries of a category's feed
    whose lower-cased title contains a buzzword. Fetching the feed is not part
    of this module; the entries arrive as a sequence. */
module KeywordFilter {
  import opened Text

  /** What the program reads of a feed entry: its title, its authors' names and its id (the link). */
  datatype Entry = Entry(title: string, authors: seq<string>, id: string)

  /** `buzzword in title.lower()`. Only the title is lower-cased, so a buzzword
      with an upper-case letter never matches, and the empty buzzword always does. */
  predicate Matches(title: string, buzzword: string)
  {
    Contains(Lower(title), buzzword)
  }

  /** How many of the buzzwords, counted with repetition, the title matches. */
  function Hits(title: string, buzzwords: seq<string>): (n: nat)
    ensures n <= |buzzwords|
  {
    if |buzzwords| == 0 then 0
    else (if Matches(title, buzzwords[0]) then 1 else 0) + Hits(title, buzzwords[1..])
  }

  function Repeat<T>(x: T, n: nat): (r: seq<T>)
    ensures |r| == n
    ensures forall k | 0 <= k < n :: r[k] == x
  {
    if n == 0 then [] else [x] + Repeat(x, n - 1)
  }

  /** The result of the two nested loops: each entry, in feed order, once per
      buzzword it matches. */
  function Filtered(entries: seq<Entry>, buzzwords: seq<string>): seq<Entry>
  {
    if |entries| == 0 then []
    else Repeat(entries[0], Hits(entries[0].title, buzzwords)) + Filtered(entries[1..], buzzwords)
  }

  /** For each position of `Filtered`, the index (plus `base`) of the feed entry it copies. */
  function Origins(entries: seq<Entry>, buzzwords: seq<string>, base: nat): seq<nat>
  {
    if |entries| == 0 then []
    else Repeat(base, Hits(entries[0].title, buzzwords)) + Origins(entries[1..], buzzwords, base + 1)
  }

  /** The sum of `Hits` over the feed. */
  function TotalHits(entries: seq<Entry>, buzzwords: seq<string>): nat
  {
    if |entries| == 0 then 0
    else Hits(entries[0].title, buzzwords) + TotalHits(entries[1..], buzzwords)
  }

  /** An entry is kept at least once exactly when some buzzword matches its title. */
  lemma {:induction false} HitsPositiveIff(title: string, buzzwords: seq<string>)
    ensures Hits(title, buzzwords) > 0 <==> exists j | 0 <= j < |buzzwords| :: Matches(title, buzzwords[j])
  {
    if |buzzwords| > 0 {
      HitsPositiveIff(title, buzzwords[1..]);
      assert forall j | 1 <= j < |buzzwords| :: buzzwords[j] == buzzwords[1..][j - 1];
    }
  }

  /** The result is as long as the total number of hits, hence at most
      |entries| * |buzzwords|. */
  lemma {:induction false} FilteredLength(entries: seq<Entry>, buzzwords: seq<string>)
    ensures |Filtered(entries, buzzwords)| == TotalHits(entries, buzzwords)
    ensures TotalHits(entries, buzzwords) <= |entries| * |buzzwords|
  {
    if |entries| > 0 {
      FilteredLength(entries[1..], buzzwords);
      assert |entries| * |buzzwords| == (|entries| - 1) * |buzzwords| + |buzzwords|;
    }
  }

  /** How many times `y` occurs in `s`. */
  function Occurrences(s: seq<nat>, y: nat): nat
  {
    if |s| == 0 then 0 else (if s[0] == y then 1 else 0) + Occurrences(s[1..], y)
  }

  lemma {:induction false} OccurrencesRepeatAppend(x: nat, n: nat, rest: seq<nat>, y: nat)
    ensures Occurrences(Repeat(x, n) + rest, y) == (if y == x then n else 0) + Occurrences(rest, y)
  {
    if n == 0 {
      assert Repeat(x, n) + rest == rest;
    } else {
      OccurrencesRepeatAppend(x, n - 1, rest, y);
      assert (Repeat(x, n) + rest)[1..] == Repeat(x, n - 1) + rest;
    }
  }

  /** As many origins as result elements. */
  lemma {:induction false} OriginsLength(entries: seq<Entry>, buzzwords: seq<string>, base: nat)
    ensures |Origins(entries, buzzwords, base)| == |Filtered(entries, buzzwords)|
  {
    if |entries| > 0 {
      OriginsLength(entries[1..], buzzwords, base + 1);
    }
  }

  /** Every element of the result is the feed entry its origin names. */
  lemma {:induction false} OriginsPoint(entries: seq<Entry>, buzzwords: seq<string>, base: nat, k: nat)
    requires k < |Filtered(entries, buzzwords)|
    ensures |Origins(entries, buzzwords, base)| == |Filtered(entries, buzzwords)|
    ensures base <= Origins(entries, buzzwords, base)[k] < base + |entries|
    ensures Filtered(entries, buzzwords)[k] == entries[Origins(entries, buzzwords, base)[k] - base]
  {
    OriginsLength(entries, buzzwords, base);
    var h := Hits(entries[0].title, buzzwords);
    if k >= h {
      var tail := entries[1..];
      OriginsPoint(tail, buzzwords, base + 1, k - h);
      assert Origins(entries, buzzwords, base)[k] == Origins(tail, buzzwords, base + 1)[k - h];
      assert Filtered(entries, buzzwords)[k] == Filtered(tail, buzzwords)[k - h];
    }
  }

  /** Origins never decrease: feed order is kept and copies of one entry are contiguous. */
  lemma {:induction false} OriginsSorted(entries: seq<Entry>, buzzwords: seq<string>, base: nat)
    ensures forall k | 0 <= k < |Origins(entries, buzzwords, base)| :: base <= Origins(entries, buzzwords, base)[k]
    ensures forall k, l | 0 <= k <= l < |Origins(entries, buzzwords, base)| ::
              Origins(entries, buzzwords, base)[k] <= Origins(entries, buzzwords, base)[l]
  {
    if |entries| > 0 {
      OriginsSorted(entries[1..], buzzwords, base + 1);
      var h := Hits(entries[0].title, buzzwords);
      var o := Origins(entries, buzzwords, base);
      var ot := Origins(entries[1..], buzzwords, base + 1);
      assert forall k | h <= k < |o| :: o[k] == ot[k - h];
    }
  }

  /** Entry `i` is copied exactly once per buzzword its lower-cased title contains. */
  lemma {:induction false} OriginsCount(entries: seq<Entry>, buzzwords: seq<string>, base: nat, y: nat)
    ensures y < base ==> Occurrences(Origins(entries, buzzwords, base), y) == 0
    ensures base <= y < base + |entries| ==>
              Occurrences(Origins(entries, buzzwords, base), y) == Hits(entries[y - base].title, buzzwords)
  {
    if |entries| > 0 {
      var h := Hits(entries[0].title, buzzwords);
      var tail := entries[1..];
      OriginsCount(tail, buzzwords, base + 1, y);
      OccurrencesRepeatAppend(base, h, Origins(tail, buzzwords, base + 1), y);
      if base < y < base + |entries| {
        assert entries[y - base] == tail[y - (base + 1)];
      }
    }
  }

  /** The shape of the result, with origins counted from 0: element `k` is feed
      entry `Origins(...)[k]`, origins never decrease, and entry `i` appears
      exactly `Hits(entries[i].title, buzzwords)` times. */
  lemma FilteredShape(entries: seq<Entry>, buzzwords: seq<string>)
    ensures |Origins(entries, buzzwords, 0)| == |Filtered(entries, buzzwords)|
    ensures forall k | 0 <= k < |Filtered(entries, buzzwords)| ::
              Origins(entries, buzzwords, 0)[k] < |entries|
              && Filtered(entries, buzzwords)[k] == entries[Origins(entries, buzzwords, 0)[k]]
    ensures forall k, l | 0 <= k <= l < |Origins(entries, buzzwords, 0)| ::
              Origins(entries, buzzwords, 0)[k] <= Origins(entries, buzzwords, 0)[l]
    ensures forall i | 0 <= i < |entries| ::
              Occurrences(Origins(entries, buzzwords, 0), i) == Hits(entries[i].title, buzzwords)
  {
    OriginsLength(entries, buzzwords, 0);
    forall k | 0 <= k < |Filtered(entries, buzzwords)|
      ensures Origins(entries, buzzwords, 0)[k] < |entries|
      ensures Filtered(entries, buzzwords)[k] == entries[Origins(entries, buzzwords, 0)[k]]
    {
      OriginsPoint(entries, buzzwords, 0, k);
    }
    OriginsSorted(entries, buzzwords, 0);
    forall i | 0 <= i < |entries|
      ensures Occurrences(Origins(entries, buzzwords, 0), i) == Hits(entries[i].title, buzzwords)
    {
      OriginsCount(entries, buzzwords, 0, i);
    }
  }

  /** A feed entry is in the result exactly when some buzzword matches its title;
      nothing else is. */
  lemma {:induction false} FilteredMembership(entries: seq<Entry>, buzzwords: seq<string>, e: Entry)
    ensures e in Filtered(entries, buzzwords) <==>
              exists i | 0 <= i < |entries| :: entries[i] == e && Hits(e.title, buzzwords) > 0
  {
    if |entries| > 0 {
      FilteredMembership(entries[1..], buzzwords, e);
      assert forall i | 1 <= i < |entries| :: entries[i] == entries[1..][i - 1];
      assert Filtered(entries, buzzwords)
          == Repeat(entries[0], Hits(entries[0].title, buzzwords)) + Filtered(entries[1..], buzzwords);
      if Hits(entries[0].title, buzzwords) > 0 && entries[0] == e {
        assert Filtered(entries, buzzwords)[0] == e;
      }
    }
  }

  predicate HasUpper(b: string)
  {
    exists k | 0 <= k < |b| :: IsUpper(b[k])
  }

  /** Since only the title is lower-cased, buzzwords that all hold an
      upper-case letter select nothing, whatever the feed. */
  lemma {:induction false} CapitalisedBuzzwordsSelectNothing(entries: seq<Entry>, buzzwords: seq<string>)
    requires forall j | 0 <= j < |buzzwords| :: HasUpper(buzzwords[j])
    ensures Filtered(entries, buzzwords) == []
  {
    if |entries| > 0 {
      CapitalisedBuzzwordsSelectNothing(entries[1..], buzzwords);
      HitsPositiveIff(entries[0].title, buzzwords);
      forall j | 0 <= j < |buzzwords| ensures !Matches(entries[0].title, buzzwords[j]) {
        var k :| 0 <= k < |buzzwords[j]| && IsUpper(buzzwords[j][k]);
        UpperNeverInLower(entries[0].title, buzzwords[j], k);
      }
    }
  }

  /** A title character matches a buzzword character when they are equal or
      the title has the upper-case form of the buzzword's letter. */
  predicate CharMatchesIgnoringCase(t: char, b: char)
  {
    t == b || (IsUpper(t) && b as int == t as int + 32)
  }

  /** The buzzword matches the title at position `i`, ignoring the case of the title. */
  predicate MatchesAt(title: string, buzzword: string, i: int)
  {
    0 <= i && i + |buzzword| <= |title|
    && forall k | 0 <= k < |buzzword| :: CharMatchesIgnoringCase(title[i + k], buzzword[k])
  }

  /** For a buzzword without upper-case letters the filter is a case-insensitive
      substring test: it matches exactly when, at some position, every title
      character is the buzzword's character or its upper-case form. */
  lemma MatchesIgnoringCase(title: string, buzzword: string)
    requires !HasUpper(buzzword)
    ensures Matches(title, buzzword) <==> exists i :: MatchesAt(title, buzzword, i)
  {
    var low := Lower(title);
    ContainsIffOccurs(low, buzzword);
    forall i ensures OccursAt(low, buzzword, i) <==> MatchesAt(title, buzzword, i) {
      if 0 <= i && i + |buzzword| <= |title| {
        var slice := low[i..i + |buzzword|];
        assert forall k | 0 <= k < |buzzword| :: slice[k] == low[i + k];
        assert forall k | 0 <= k < |buzzword| ::
                 (low[i + k] == buzzword[k] <==> CharMatchesIgnoringCase(title[i + k], buzzword[k]));
        if MatchesAt(title, buzzword, i) {
          assert slice == buzzword;
        }
      }
    }
  }

  lemma HitsStep(title: string, buzzwords: seq<string>, j: nat)
    requires j < |buzzwords|
    ensures Hits(title, buzzwords[j..]) == (if Matches(title, buzzwords[j]) then 1 else 0) + Hits(title, buzzwords[j + 1..])
  {
    assert buzzwords[j..][1..] == buzzwords[j + 1..];
  }

  lemma FilteredStep(entries: seq<Entry>, buzzwords: seq<string>, i: nat)
    requires i < |entries|
    ensures Filtered(entries[i..], buzzwords)
         == Repeat(entries[i], Hits(entries[i].title, buzzwords)) + Filtered(entries[i + 1..], buzzwords)
  {
    assert entries[i..][1..] == entries[i + 1..];
  }

  lemma RepeatAppendStep(res: seq<Entry>, entry: Entry, h: nat, rest: seq<Entry>)
    ensures res + Repeat(entry, h + 1) + rest == (res + [entry]) + Repeat(entry, h) + rest
    ensures res + Repeat(entry, 0) + rest == res + rest
  {
    assert Repeat(entry, h + 1) == [entry] + Repeat(entry, h);
    assert Repeat(entry, 0) == [];
  }

  /** The filter loop of `get_articles`. */
  method GetArticles(entries: seq<Entry>, buzzwords: seq<string>) returns (res: seq<Entry>)
    ensures res == Filtered(entries, buzzwords)
  {
    res := [];
    assert entries[0..] == entries;
    for i := 0 to |entries|
      invariant Filtered(entries, buzzwords) == res + Filtered(entries[i..], buzzwords)
    {
      var entry := entries[i];
      FilteredStep(entries, buzzwords, i);
      assert buzzwords[0..] == buzzwords;
      for j := 0 to |buzzwords|
        invariant Filtered(entries, buzzwords)
               == res + Repeat(entry, Hits(entry.title, buzzwords[j..])) + Filtered(entries[i + 1..], buzzwords)
      {
        HitsStep(entry.title, buzzwords, j);
        RepeatAppendStep(res, entry, Hits(entry.title, buzzwords[j + 1..]), Filtered(entries[i + 1..], buzzwords));
        if Matches(entry.title, buzzwords[j]) {
          res := res + [entry];
        }
      }
      assert buzzwords[|buzzwords|..] == [];
      RepeatAppendStep(res, entry, 0, Filtered(entries[i + 1..], buzzwords));
    }
    assert entries[|entries|..] == [];
  }
}
