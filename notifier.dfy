/** Sending the results to Telegram (`send_articles`) and the loop of `main`
    over the configured updates. The Telegram client is a `Bot` whose only
    effect is to append `(chat id, text)` to its log; the arXiv feed of a
    category is given by `fetch`. */
module Notifier {
  import opened Wrappers
  import opened Text
  import opened ConfigLoader
  import opened KeywordFilter

  datatype Message = Message(chatId: string, text: string)

  /** The messages a stretch of the run sent, in order, and whether it stopped
      on an `IndexError` (an article whose author list is empty). */
  datatype Delivery = Delivery(sent: seq<Message>, crashed: bool)

  /** The Telegram client: every `send_message` appends to the log. */
  class Bot {
    const token: string
    var log: seq<Message>

    constructor (token: string)
      ensures this.token == token && log == []
    {
      this.token := token;
      log := [];
    }

    method SendMessage(chatId: string, text: string)
      modifies this
      ensures log == old(log) + [Message(chatId, text)]
    {
      log := log + [Message(chatId, text)];
    }
  }

  const NothingFoundText := "I scraped the arXiv RSS but found nothing of interest for you. Sorry."
  const SummaryPrefix := "You are going to be happy. I found "

  function SummaryText(n: nat): string
  {
    SummaryPrefix + NatToString(n) + " article(s) of potential interest."
  }

  /** The text for one article; it reads the first author, which must exist. */
  function ArticleText(a: Entry): string
    requires |a.authors| > 0
  {
    "<strong>Title</strong>: " + a.title + "\n<strong>Authors</strong>: " + a.authors[0]
      + "\n<strong>Link</strong>: " + a.id
  }

  function InfoText(u: Update): string
  {
    "Hi there ! I am configured to send articles from category " + u.category
      + " with buzzwords " + Join(u.buzzwords, ", ")
  }

  function Then(sent: seq<Message>, d: Delivery): Delivery
  {
    Delivery(sent + d.sent, d.crashed)
  }

  lemma ThenAssoc(a: seq<Message>, b: seq<Message>, d: Delivery)
    ensures Then(a + b, d) == Then(a, Then(b, d))
    ensures Then([], d) == d
  {
    assert a + b + d.sent == a + (b + d.sent);
    assert [] + d.sent == d.sent;
  }

  /** The loop over the articles: one message each, in order, until the first
      article without an author, where the run stops before sending. */
  function ArticleMessages(chatId: string, articles: seq<Entry>): Delivery
  {
    if |articles| == 0 then Delivery([], false)
    else if |articles[0].authors| == 0 then Delivery([], true)
    else Then([Message(chatId, ArticleText(articles[0]))], ArticleMessages(chatId, articles[1..]))
  }

  /** Message `k` is the text of article `k`, which has an author; the loop
      stops early exactly at the first article without one. */
  lemma {:induction false} ArticleMessagesShape(chatId: string, articles: seq<Entry>)
    ensures var d := ArticleMessages(chatId, articles);
            && |d.sent| <= |articles|
            && (forall k | 0 <= k < |d.sent| ::
                  |articles[k].authors| > 0 && d.sent[k] == Message(chatId, ArticleText(articles[k])))
            && (d.crashed <==> |d.sent| < |articles|)
            && (d.crashed ==> |articles[|d.sent|].authors| == 0)
  {
    if |articles| > 0 && |articles[0].authors| > 0 {
      var tail := articles[1..];
      ArticleMessagesShape(chatId, tail);
      var d := ArticleMessages(chatId, articles);
      var rest := ArticleMessages(chatId, tail);
      assert d.sent == [Message(chatId, ArticleText(articles[0]))] + rest.sent;
      assert forall k | 1 <= k < |articles| :: articles[k] == tail[k - 1];
      assert forall k | 1 <= k < |d.sent| :: d.sent[k] == rest.sent[k - 1];
    }
  }

  predicate AllHaveAuthors(articles: seq<Entry>)
  {
    forall k | 0 <= k < |articles| :: |articles[k].authors| > 0
  }

  /** `send_articles` once the articles are known. */
  function SendPlan(chatId: string, articles: seq<Entry>, quiet: bool): Delivery
  {
    if |articles| == 0 then
      if quiet then Delivery([], false) else Delivery([Message(chatId, NothingFoundText)], false)
    else Then([Message(chatId, SummaryText(|articles|))], ArticleMessages(chatId, articles))
  }

  /** Nothing (quiet) or one "nothing found" message when there are no
      articles; otherwise a summary stating their number, then one message per
      article in order, N + 1 in all when every article has an author. Every
      message goes to `chatId`, and the run stops early exactly when some
      article has no author. */
  lemma SendPlanShape(chatId: string, articles: seq<Entry>, quiet: bool)
    ensures var d := SendPlan(chatId, articles, quiet);
            && (|articles| == 0 ==> !d.crashed && |d.sent| == (if quiet then 0 else 1))
            && (|articles| > 0 && AllHaveAuthors(articles) ==> !d.crashed && |d.sent| == |articles| + 1)
            && (d.crashed <==> !AllHaveAuthors(articles))
            && (forall m | m in d.sent :: m.chatId == chatId)
            && |d.sent| <= |articles| + 1
            && (|articles| > 0 ==> |d.sent| >= 1 && d.sent[0] == Message(chatId, SummaryText(|articles|)))
            && (|articles| > 0 ==> forall k | 1 <= k < |d.sent| ::
                  |articles[k - 1].authors| > 0 && d.sent[k] == Message(chatId, ArticleText(articles[k - 1])))
  {
    ArticleMessagesShape(chatId, articles);
    var d := SendPlan(chatId, articles, quiet);
    if |articles| > 0 {
      var rest := ArticleMessages(chatId, articles);
      assert d.sent == [Message(chatId, SummaryText(|articles|))] + rest.sent;
      assert forall k | 1 <= k < |d.sent| :: d.sent[k] == rest.sent[k - 1];
      assert forall m | m in rest.sent :: m.chatId == chatId;
    }
  }

  /** The summary message states the number of articles in decimal. */
  lemma SummaryStatesCount(n: nat)
    ensures SummaryText(n)[..|SummaryPrefix|] == SummaryPrefix
    ensures var digits := SummaryText(n)[|SummaryPrefix|..|SummaryPrefix| + |NatToString(n)|];
            (forall i | 0 <= i < |digits| :: IsDigit(digits[i])) && DigitsValue(digits) == n
  {
    NatToStringRoundTrip(n);
    assert SummaryText(n)[|SummaryPrefix|..|SummaryPrefix| + |NatToString(n)|] == NatToString(n);
  }

  /** What `main` does for one update. */
  function UpdatePlan(u: Update, quiet: bool, printInfo: bool, fetch: string -> seq<Entry>): Delivery
  {
    if printInfo then Delivery([Message(u.chatId, InfoText(u))], false)
    else SendPlan(u.chatId, Filtered(fetch(u.category), u.buzzwords), quiet)
  }

  /** The loop of `main` over the updates, in order; an exception ends it. */
  function DispatchPlan(updates: seq<Update>, quiet: bool, printInfo: bool, fetch: string -> seq<Entry>): Delivery
  {
    if |updates| == 0 then Delivery([], false)
    else
      var d := UpdatePlan(updates[0], quiet, printInfo, fetch);
      if d.crashed then d else Then(d.sent, DispatchPlan(updates[1..], quiet, printInfo, fetch))
  }

  /** In print-info mode every update gets exactly one message, to its own
      chat, describing its category and buzzwords, in update order. */
  lemma {:induction false} PrintInfoOnePerUpdate(updates: seq<Update>, quiet: bool, fetch: string -> seq<Entry>)
    ensures !DispatchPlan(updates, quiet, true, fetch).crashed
    ensures |DispatchPlan(updates, quiet, true, fetch).sent| == |updates|
    ensures forall i | 0 <= i < |updates| ::
              DispatchPlan(updates, quiet, true, fetch).sent[i] == Message(updates[i].chatId, InfoText(updates[i]))
  {
    if |updates| > 0 {
      PrintInfoOnePerUpdate(updates[1..], quiet, fetch);
      var rest := DispatchPlan(updates[1..], quiet, true, fetch);
      assert DispatchPlan(updates, quiet, true, fetch).sent == [Message(updates[0].chatId, InfoText(updates[0]))] + rest.sent;
      assert forall i | 1 <= i < |updates| :: updates[i] == updates[1..][i - 1];
    }
  }

  /** Every message the loop sends goes to the chat of some configured update. */
  lemma {:induction false} DispatchOnlyToConfiguredChats(updates: seq<Update>, quiet: bool, printInfo: bool, fetch: string -> seq<Entry>)
    ensures forall m | m in DispatchPlan(updates, quiet, printInfo, fetch).sent ::
              exists i | 0 <= i < |updates| :: m.chatId == updates[i].chatId
  {
    if |updates| > 0 {
      DispatchOnlyToConfiguredChats(updates[1..], quiet, printInfo, fetch);
      SendPlanShape(updates[0].chatId, Filtered(fetch(updates[0].category), updates[0].buzzwords), quiet);
      var d := UpdatePlan(updates[0], quiet, printInfo, fetch);
      assert forall m | m in d.sent :: m.chatId == updates[0].chatId;
      assert forall i | 1 <= i < |updates| :: updates[i] == updates[1..][i - 1];
    }
  }

  /** Without print-info mode and with every matched article carrying an
      author, the run never stops early and sends, per update, its
      `send_articles` messages, one block after the other. Authors of entries
      that match no buzzword are never read. */
  lemma {:induction false} DispatchCompletes(updates: seq<Update>, quiet: bool, fetch: string -> seq<Entry>)
    requires forall i | 0 <= i < |updates| ::
               AllHaveAuthors(Filtered(fetch(updates[i].category), updates[i].buzzwords))
    ensures !DispatchPlan(updates, quiet, false, fetch).crashed
    ensures |DispatchPlan(updates, quiet, false, fetch).sent| == MessageCount(updates, quiet, fetch)
  {
    if |updates| > 0 {
      assert forall i | 1 <= i < |updates| :: updates[i] == updates[1..][i - 1];
      DispatchCompletes(updates[1..], quiet, fetch);
      SendPlanShape(updates[0].chatId, Filtered(fetch(updates[0].category), updates[0].buzzwords), quiet);
    }
  }

  /** The plan of every update, in update order. */
  function Plans(updates: seq<Update>, quiet: bool, printInfo: bool, fetch: string -> seq<Entry>): (ds: seq<Delivery>)
    ensures |ds| == |updates|
    ensures forall j | 0 <= j < |updates| :: ds[j] == UpdatePlan(updates[j], quiet, printInfo, fetch)
  {
    seq(|updates|, j requires 0 <= j < |updates| => UpdatePlan(updates[j], quiet, printInfo, fetch))
  }

  /** Running blocks of messages one after the other, stopping after the first
      block that crashed. */
  function Chain(ds: seq<Delivery>): Delivery
  {
    if |ds| == 0 then Delivery([], false)
    else if ds[0].crashed then ds[0]
    else Then(ds[0].sent, Chain(ds[1..]))
  }

  /** The messages of all blocks, one block after the other. */
  function SentAll(ds: seq<Delivery>): seq<Message>
  {
    if |ds| == 0 then [] else ds[0].sent + SentAll(ds[1..])
  }

  lemma {:induction false} ChainStopsAtFirstCrash(ds: seq<Delivery>, i: nat)
    requires i < |ds| && ds[i].crashed
    requires forall j | 0 <= j < i :: !ds[j].crashed
    ensures Chain(ds).crashed
    ensures Chain(ds).sent == SentAll(ds[..i + 1])
  {
    var head := ds[..i + 1];
    assert head[0] == ds[0];
    if i == 0 {
      assert head[1..] == [];
      assert ds[0].sent + [] == ds[0].sent;
    } else {
      ChainStopsAtFirstCrash(ds[1..], i - 1);
      assert head[1..] == ds[1..][..i];
    }
  }

  lemma {:induction false} ChainWithoutCrash(ds: seq<Delivery>)
    requires forall j | 0 <= j < |ds| :: !ds[j].crashed
    ensures !Chain(ds).crashed
    ensures Chain(ds).sent == SentAll(ds)
  {
    if |ds| > 0 {
      ChainWithoutCrash(ds[1..]);
    }
  }

  lemma {:induction false} DispatchIsChain(updates: seq<Update>, quiet: bool, printInfo: bool, fetch: string -> seq<Entry>)
    ensures DispatchPlan(updates, quiet, printInfo, fetch) == Chain(Plans(updates, quiet, printInfo, fetch))
  {
    if |updates| > 0 {
      DispatchIsChain(updates[1..], quiet, printInfo, fetch);
      assert Plans(updates, quiet, printInfo, fetch)[1..] == Plans(updates[1..], quiet, printInfo, fetch);
    }
  }

  /** When update `i` is the first whose plan stops on an article without an
      author, the run stops there: it has sent the blocks of updates 0 to i,
      in order, and nothing for the later ones. */
  lemma DispatchStopsAtFirstCrash(updates: seq<Update>, quiet: bool, printInfo: bool,
                                  fetch: string -> seq<Entry>, i: nat)
    requires i < |updates| && UpdatePlan(updates[i], quiet, printInfo, fetch).crashed
    requires forall j | 0 <= j < i :: !UpdatePlan(updates[j], quiet, printInfo, fetch).crashed
    ensures DispatchPlan(updates, quiet, printInfo, fetch).crashed
    ensures DispatchPlan(updates, quiet, printInfo, fetch).sent == SentAll(Plans(updates, quiet, printInfo, fetch)[..i + 1])
  {
    DispatchIsChain(updates, quiet, printInfo, fetch);
    ChainStopsAtFirstCrash(Plans(updates, quiet, printInfo, fetch), i);
  }

  /** When no update's plan stops, the run sends every update's block, in order. */
  lemma DispatchWithoutCrash(updates: seq<Update>, quiet: bool, printInfo: bool, fetch: string -> seq<Entry>)
    requires forall j | 0 <= j < |updates| :: !UpdatePlan(updates[j], quiet, printInfo, fetch).crashed
    ensures !DispatchPlan(updates, quiet, printInfo, fetch).crashed
    ensures DispatchPlan(updates, quiet, printInfo, fetch).sent == SentAll(Plans(updates, quiet, printInfo, fetch))
  {
    DispatchIsChain(updates, quiet, printInfo, fetch);
    ChainWithoutCrash(Plans(updates, quiet, printInfo, fetch));
  }

  /** Outside print-info mode the run stops early exactly when some update's
      matched articles include one without an author. */
  lemma {:induction false} DispatchCrashesIff(updates: seq<Update>, quiet: bool, fetch: string -> seq<Entry>)
    ensures DispatchPlan(updates, quiet, false, fetch).crashed <==>
              exists i | 0 <= i < |updates| ::
                !AllHaveAuthors(Filtered(fetch(updates[i].category), updates[i].buzzwords))
  {
    if |updates| > 0 {
      assert forall j | 1 <= j < |updates| :: updates[j] == updates[1..][j - 1];
      DispatchCrashesIff(updates[1..], quiet, fetch);
      SendPlanShape(updates[0].chatId, Filtered(fetch(updates[0].category), updates[0].buzzwords), quiet);
    }
  }

  /** Messages per update when nothing goes wrong: 0 or 1 for no match
      (quiet or not), N + 1 for N matches. */
  function MessageCount(updates: seq<Update>, quiet: bool, fetch: string -> seq<Entry>): nat
  {
    if |updates| == 0 then 0
    else
      var n := |Filtered(fetch(updates[0].category), updates[0].buzzwords)|;
      (if n == 0 then (if quiet then 0 else 1) else n + 1) + MessageCount(updates[1..], quiet, fetch)
  }

  /** The outcome of `main`: the configuration was refused before the bot was
      created, or the bot ran and sent these messages. */
  datatype RunResult = ConfigFailed(error: ConfigError) | Ran(token: string, delivery: Delivery)

  function MainPlan(sections: seq<Section>, quiet: bool, printInfo: bool, fetch: string -> seq<Entry>): (r: RunResult)
    ensures r.ConfigFailed? <==> Load(sections).Failure?
    ensures r.ConfigFailed? ==> r.error == Load(sections).error
    ensures r.Ran? ==> r.token == Load(sections).value.token
  {
    match Load(sections)
    case Failure(e) => ConfigFailed(e)
    case Success(l) => Ran(l.token, DispatchPlan(l.updates, quiet, printInfo, fetch))
  }

  /** `send_articles`: fetch, filter, then send. Returns whether it stopped on
      an article without authors. */
  method SendArticles(bot: Bot, chatId: string, category: string, buzzwords: seq<string>, quiet: bool,
                      fetch: string -> seq<Entry>) returns (crashed: bool)
    modifies bot
    ensures bot.log == old(bot.log) + SendPlan(chatId, Filtered(fetch(category), buzzwords), quiet).sent
    ensures crashed == SendPlan(chatId, Filtered(fetch(category), buzzwords), quiet).crashed
  {
    var articles := GetArticles(fetch(category), buzzwords);
    if |articles| == 0 {
      if !quiet {
        bot.SendMessage(chatId, NothingFoundText);
      }
      return false;
    }
    var summary := Message(chatId, SummaryText(|articles|));
    bot.SendMessage(chatId, SummaryText(|articles|));
    crashed := SendEach(bot, chatId, articles);
    assert old(bot.log) + [summary] + ArticleMessages(chatId, articles).sent
        == old(bot.log) + ([summary] + ArticleMessages(chatId, articles).sent);
  }

  /** The loop of `send_articles` over the articles: one message each, in order,
      stopping at the first article without an author. */
  method SendEach(bot: Bot, chatId: string, articles: seq<Entry>) returns (crashed: bool)
    modifies bot
    ensures bot.log == old(bot.log) + ArticleMessages(chatId, articles).sent
    ensures crashed == ArticleMessages(chatId, articles).crashed
  {
    ThenAssoc([], [], ArticleMessages(chatId, articles[0..]));
    assert articles[0..] == articles;
    for i := 0 to |articles|
      invariant Then(bot.log, ArticleMessages(chatId, articles[i..])) == Then(old(bot.log), ArticleMessages(chatId, articles))
    {
      assert articles[i..][1..] == articles[i + 1..];
      var article := articles[i];
      if |article.authors| == 0 {
        assert bot.log + [] == bot.log;
        return true;
      }
      ThenAssoc(bot.log, [Message(chatId, ArticleText(article))], ArticleMessages(chatId, articles[i + 1..]));
      bot.SendMessage(chatId, ArticleText(article));
    }
    assert articles[|articles|..] == [];
    assert bot.log + [] == bot.log;
    return false;
  }

  /** The loop of `main` over the updates. */
  method Dispatch(bot: Bot, updates: seq<Update>, quiet: bool, printInfo: bool, fetch: string -> seq<Entry>)
    returns (crashed: bool)
    modifies bot
    ensures bot.log == old(bot.log) + DispatchPlan(updates, quiet, printInfo, fetch).sent
    ensures crashed == DispatchPlan(updates, quiet, printInfo, fetch).crashed
  {
    ThenAssoc([], [], DispatchPlan(updates, quiet, printInfo, fetch));
    assert updates[0..] == updates;
    for i := 0 to |updates|
      invariant Then(bot.log, DispatchPlan(updates[i..], quiet, printInfo, fetch))
             == Then(old(bot.log), DispatchPlan(updates, quiet, printInfo, fetch))
    {
      assert updates[i..][1..] == updates[i + 1..];
      var update := updates[i];
      ghost var logBefore := bot.log;
      var stopped := false;
      if printInfo {
        bot.SendMessage(update.chatId, InfoText(update));
      } else {
        stopped := SendArticles(bot, update.chatId, update.category, update.buzzwords, quiet, fetch);
      }
      ghost var d := UpdatePlan(update, quiet, printInfo, fetch);
      assert bot.log == logBefore + d.sent && stopped == d.crashed;
      if stopped {
        return true;
      }
      ThenAssoc(logBefore, d.sent, DispatchPlan(updates[i + 1..], quiet, printInfo, fetch));
    }
    assert updates[|updates|..] == [];
    assert bot.log + [] == bot.log;
    return false;
  }

  /** `main` after argument parsing: load the configuration, create the bot
      with its token, then run every update. */
  method RunMain(sections: seq<Section>, quiet: bool, printInfo: bool, fetch: string -> seq<Entry>)
    returns (r: RunResult)
    ensures r == MainPlan(sections, quiet, printInfo, fetch)
  {
    var loaded := LoadConfig(sections);
    if loaded.Failure? {
      return ConfigFailed(loaded.error);
    }
    var bot := new Bot(loaded.value.token);
    var crashed := Dispatch(bot, loaded.value.updates, quiet, printInfo, fetch);
    return Ran(bot.token, Delivery(bot.log, crashed));
  }
}
