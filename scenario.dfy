/** A whole run over a small configuration: one `[bot]` section, one update
    section watching a category for two buzzwords, and a feed with one entry
    matching the first buzzword and one matching neither. The run sends the
    summary for one article, then that article. The general lemmas take the
    matches as hypotheses; `ConcreteRun` derives them for concrete titles. */
module Scenario {
  import opened Wrappers
  import opened Text
  import opened ConfigLoader
  import opened KeywordFilter
  import opened Notifier

  function ExampleConfig(token: string, name: string, category: string, chatId: string, w1: string, w2: string)
    : seq<Section>
  {
    [ Section(BotSection, map["token" := token]),
      Section(name, map["category" := category, "chat_id" := chatId, "buzzwords" := w1 + "," + w2]) ]
  }

  lemma SplitTwo(a: string, b: string, sep: char)
    requires sep !in a && sep !in b
    ensures Split(a + [sep] + b, sep) == [a, b]
  {
    SplitLine(a, b, sep);
    SplitNoSep(b, sep);
  }

  lemma ExampleLoads(token: string, name: string, category: string, chatId: string, w1: string, w2: string)
    requires name != BotSection
    requires ',' !in w1 && ',' !in w2
    ensures Load(ExampleConfig(token, name, category, chatId, w1, w2))
         == Success(Loaded(token, [Update(category, chatId, [w1, w2])]))
  {
    var config := ExampleConfig(token, name, category, chatId, w1, w2);
    SplitTwo(w1, w2, ',');
    assert FindSection(config, BotSection) == Some(config[0]);
    var u := Update(category, chatId, [w1, w2]);
    assert config[1..][0] == config[1] && config[1..][1..] == [];
    assert NewUpdate(config[1]) == Success(u);
    assert BuildUpdates(config[1..][1..]) == Success([]);
    assert [u] + [] == [u];
    assert BuildUpdates(config[1..]) == Success([u]);
    assert BuildUpdates(config) == Success([u]);
  }

  lemma ExampleFilter(w1: string, w2: string, hit: Entry, miss: Entry)
    requires Matches(hit.title, w1) && !Matches(hit.title, w2)
    requires !Matches(miss.title, w1) && !Matches(miss.title, w2)
    ensures Filtered([hit, miss], [w1, w2]) == [hit]
  {
    var bws := [w1, w2];
    assert bws[0] == w1 && bws[1..][0] == w2 && bws[1..][1..] == [];
    assert Hits(hit.title, bws[1..]) == 0;
    assert Hits(hit.title, bws) == 1;
    assert Hits(miss.title, bws[1..]) == 0;
    assert Hits(miss.title, bws) == 0;
    var entries := [hit, miss];
    assert entries[1..][0] == miss && entries[1..][1..] == [];
    assert Filtered(entries[1..], bws) == [] + [];
    assert Repeat(hit, 1) == [hit];
    assert Filtered(entries, bws) == [hit] + ([] + []);
  }

  /** The run, not quiet and not in print-info mode, sends exactly two
      messages to the update's chat: the summary for one article, then the
      matching entry; the other entry is dropped. */
  lemma ExampleRun(token: string, name: string, category: string, chatId: string, w1: string, w2: string,
                   hit: Entry, miss: Entry, fetch: string -> seq<Entry>)
    requires name != BotSection
    requires ',' !in w1 && ',' !in w2
    requires fetch(category) == [hit, miss]
    requires Matches(hit.title, w1) && !Matches(hit.title, w2)
    requires !Matches(miss.title, w1) && !Matches(miss.title, w2)
    requires |hit.authors| > 0
    ensures MainPlan(ExampleConfig(token, name, category, chatId, w1, w2), false, false, fetch)
         == Ran(token, Delivery([Message(chatId, SummaryText(1)), Message(chatId, ArticleText(hit))], false))
  {
    ExampleLoads(token, name, category, chatId, w1, w2);
    ExampleFilter(w1, w2, hit, miss);
    var u := Update(category, chatId, [w1, w2]);
    assert [hit][1..] == [];
    var m := Message(chatId, ArticleText(hit));
    assert ArticleMessages(chatId, [hit]) == Delivery([m] + [], false);
    assert UpdatePlan(u, false, false, fetch)
        == Delivery([Message(chatId, SummaryText(1))] + ([m] + []), false);
    assert [u][1..] == [];
    assert DispatchPlan([u][1..], false, false, fetch) == Delivery([], false);
  }

  const HitTitle := "A New Transformer Architecture"
  const MissTitle := "Unrelated Topic"

  /** "transformer" matches the capitalised "Transformer" of the title. */
  lemma TransformerMatchesHitTitle()
    ensures Matches(HitTitle, "transformer")
  {
    var b := "transformer";
    assert !HasUpper(b) by {
      forall k | 0 <= k < |b| ensures !IsUpper(b[k]) {
      }
    }
    assert forall k | 0 <= k < |b| :: CharMatchesIgnoringCase(HitTitle[6 + k], b[k]);
    assert MatchesAt(HitTitle, b, 6);
    MatchesIgnoringCase(HitTitle, b);
  }

  /** The first title holds no 'd' or 'D', so "diffusion" does not match it. */
  lemma DiffusionMissesHitTitle()
    ensures !Matches(HitTitle, "diffusion")
  {
    LetterAbsentAfterLower(HitTitle, 'd');
    MissingCharNeverContained(Lower(HitTitle), "diffusion", 0);
  }

  /** The second title holds no 's' or 'S', so "transformer" does not match it. */
  lemma TransformerMissesMissTitle()
    ensures !Matches(MissTitle, "transformer")
  {
    LetterAbsentAfterLower(MissTitle, 's');
    MissingCharNeverContained(Lower(MissTitle), "transformer", 4);
  }

  /** The second title holds no 'f' or 'F', so "diffusion" does not match it. */
  lemma DiffusionMissesMissTitle()
    ensures !Matches(MissTitle, "diffusion")
  {
    LetterAbsentAfterLower(MissTitle, 'f');
    MissingCharNeverContained(Lower(MissTitle), "diffusion", 2);
  }

  lemma ConcreteConfigFacts()
    ensures "cs" != BotSection
    ensures ',' !in "transformer" && ',' !in "diffusion"
  {
  }

  /** Section `[cs]` watching `cs.AI` for "transformer,diffusion", chat 42: of the
      feed "A New Transformer Architecture" and "Unrelated Topic", only the first
      is sent, after the summary for one article. */
  lemma ConcreteRun(token: string, hitAuthors: seq<string>, hitId: string, missAuthors: seq<string>, missId: string,
                    fetch: string -> seq<Entry>)
    requires |hitAuthors| > 0
    requires fetch("cs.AI") == [Entry(HitTitle, hitAuthors, hitId), Entry(MissTitle, missAuthors, missId)]
    ensures MainPlan(ExampleConfig(token, "cs", "cs.AI", "42", "transformer", "diffusion"), false, false, fetch)
         == Ran(token, Delivery([Message("42", SummaryText(1)),
                                 Message("42", ArticleText(Entry(HitTitle, hitAuthors, hitId)))], false))
  {
    TransformerMatchesHitTitle();
    DiffusionMissesHitTitle();
    TransformerMissesMissTitle();
    DiffusionMissesMissTitle();
    ConcreteConfigFacts();
    ExampleRun(token, "cs", "cs.AI", "42", "transformer", "diffusion",
               Entry(HitTitle, hitAuthors, hitId), Entry(MissTitle, missAuthors, missId), fetch);
  }
}
