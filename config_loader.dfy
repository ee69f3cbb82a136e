/** Reading the bot's configuration: the `[bot]` section gives the Telegram
    token, and every other section describes one `Update` (an arXiv category,
    the chat to notify and the buzzwords to look for).

    The INI file itself is read by a library; here the configuration arrives
    already parsed, as the ordered list of its sections. */
module ConfigLoader {
  import opened Wrappers
  import opened Text

  /** One `[name]` section of the configuration with its key/value pairs. */
  datatype Section = Section(name: string, entries: map<string, string>)

  /** One subscription. The chat id is kept as the text the configuration holds. */
  datatype Update = Update(category: string, chatId: string, buzzwords: seq<string>)

  /** The three ways loading can fail; each is an exception in the program. */
  datatype ConfigError = NoBotSection | NoToken | IncompleteSection(section: string)

  /** What a successful load returns: the token and the updates, in file order. */
  datatype Loaded = Loaded(token: string, updates: seq<Update>)

  const BotSection := "bot"

  predicate Complete(s: Section)
  {
    "category" in s.entries && "chat_id" in s.entries && "buzzwords" in s.entries
  }

  /** Building an `Update` from its section: it fails, naming the section, when
      one of the three keys is missing; otherwise category and chat id are
      copied unchanged and the buzzwords are the comma-separated pieces of the
      raw value, untrimmed, which join back to that value. */
  function NewUpdate(s: Section): (r: Result<Update, ConfigError>)
    ensures r.Failure? <==> !Complete(s)
    ensures r.Failure? ==> r.error == IncompleteSection(s.name)
    ensures r.Success? ==> r.value.category == s.entries["category"]
    ensures r.Success? ==> r.value.chatId == s.entries["chat_id"]
    ensures r.Success? ==> |r.value.buzzwords| >= 1
    ensures r.Success? ==> Join(r.value.buzzwords, ",") == s.entries["buzzwords"]
    ensures r.Success? ==> forall b | b in r.value.buzzwords :: ',' !in b
  {
    if !Complete(s) then Failure(IncompleteSection(s.name))
    else
      var raw := s.entries["buzzwords"];
      JoinSplit(raw, ',');
      Success(Update(s.entries["category"], s.entries["chat_id"], Split(raw, ',')))
  }

  /** The first section with the given name; configparser keeps names unique,
      so this is the one `config[name]` denotes. */
  function FindSection(sections: seq<Section>, name: string): (r: Option<Section>)
    ensures r.Some? <==> exists j | 0 <= j < |sections| :: sections[j].name == name
    ensures r.Some? ==> r.value.name == name && r.value in sections
  {
    if |sections| == 0 then None
    else if sections[0].name == name then Some(sections[0])
    else
      var r := FindSection(sections[1..], name);
      assert forall j | 0 < j < |sections| :: sections[j] == sections[1..][j - 1];
      r
  }

  /** The sections that describe updates: all but those named `bot`, in order. */
  function UpdateSections(sections: seq<Section>): seq<Section>
  {
    if |sections| == 0 then []
    else if sections[0].name == BotSection then UpdateSections(sections[1..])
    else [sections[0]] + UpdateSections(sections[1..])
  }

  function Prepend(us: seq<Update>, r: Result<seq<Update>, ConfigError>): Result<seq<Update>, ConfigError>
  {
    match r
    case Success(rest) => Success(us + rest)
    case Failure(e) => Failure(e)
  }

  lemma PrependAppend(us: seq<Update>, vs: seq<Update>, r: Result<seq<Update>, ConfigError>)
    ensures Prepend([], r) == r
    ensures Prepend(us + vs, r) == Prepend(us, Prepend(vs, r))
  {
    if r.Success? {
      assert [] + r.value == r.value;
      assert us + vs + r.value == us + (vs + r.value);
    }
  }

  /** The loop over the sections: one update per non-`bot` section, stopping
      at the first incomplete one. */
  function BuildUpdates(sections: seq<Section>): Result<seq<Update>, ConfigError>
  {
    if |sections| == 0 then Success([])
    else if sections[0].name == BotSection then BuildUpdates(sections[1..])
    else
      match NewUpdate(sections[0])
      case Failure(e) => Failure(e)
      case Success(u) => Prepend([u], BuildUpdates(sections[1..]))
  }

  /** `load_config` over an already parsed file. The `bot` section and its
      token are checked before any other section is looked at. */
  function Load(sections: seq<Section>): (r: Result<Loaded, ConfigError>)
    ensures FindSection(sections, BotSection).None? ==> r == Failure(NoBotSection)
    ensures (FindSection(sections, BotSection).Some? && "token" !in FindSection(sections, BotSection).value.entries)
              ==> r == Failure(NoToken)
    ensures r.Success? ==> FindSection(sections, BotSection).Some?
    ensures r.Success? ==> "token" in FindSection(sections, BotSection).value.entries
    ensures r.Success? ==> r.value.token == FindSection(sections, BotSection).value.entries["token"]
  {
    match FindSection(sections, BotSection)
    case None => Failure(NoBotSection)
    case Some(bot) =>
      if "token" !in bot.entries then Failure(NoToken)
      else
        match BuildUpdates(sections)
        case Failure(e) => Failure(e)
        case Success(us) => Success(Loaded(bot.entries["token"], us))
  }

  /** The updates match the update sections one to one, in order. */
  predicate Corresponds(us: seq<Update>, secs: seq<Section>)
  {
    |us| == |secs| && forall j | 0 <= j < |us| :: NewUpdate(secs[j]) == Success(us[j])
  }

  predicate AllComplete(secs: seq<Section>)
  {
    forall j | 0 <= j < |secs| :: Complete(secs[j])
  }

  /** Section `j` is incomplete and every section before it is complete. */
  predicate FirstIncomplete(secs: seq<Section>, j: int)
  {
    0 <= j < |secs| && !Complete(secs[j]) && AllComplete(secs[..j])
  }

  lemma {:induction false} BuildUpdatesCorrect(sections: seq<Section>)
    ensures BuildUpdates(sections).Success? <==> AllComplete(UpdateSections(sections))
    ensures BuildUpdates(sections).Success? ==> Corresponds(BuildUpdates(sections).value, UpdateSections(sections))
    ensures BuildUpdates(sections).Failure? ==>
              exists j :: FirstIncomplete(UpdateSections(sections), j)
                       && BuildUpdates(sections).error == IncompleteSection(UpdateSections(sections)[j].name)
  {
    if |sections| > 0 {
      var tail := sections[1..];
      BuildUpdatesCorrect(tail);
      var secs := UpdateSections(sections);
      var tailSecs := UpdateSections(tail);
      if sections[0].name != BotSection {
        assert secs == [sections[0]] + tailSecs;
        assert forall j | 0 < j < |secs| :: secs[j] == tailSecs[j - 1];
        if !Complete(sections[0]) {
          assert secs[..0] == [];
          assert FirstIncomplete(secs, 0);
        } else if BuildUpdates(tail).Failure? {
          var j :| FirstIncomplete(tailSecs, j) && BuildUpdates(tail).error == IncompleteSection(tailSecs[j].name);
          assert secs[..j + 1] == [sections[0]] + tailSecs[..j];
          assert FirstIncomplete(secs, j + 1);
        }
      }
    }
  }

  /** `load_config` succeeds exactly when there is a `bot` section holding a
      token and every other section is complete. */
  lemma LoadSucceedsIff(sections: seq<Section>)
    ensures Load(sections).Success? <==>
              && FindSection(sections, BotSection).Some?
              && "token" in FindSection(sections, BotSection).value.entries
              && AllComplete(UpdateSections(sections))
  {
    BuildUpdatesCorrect(sections);
  }

  /** On success the updates correspond one to one, in file order, with the
      sections not named `bot`; in particular there are as many of them. */
  lemma LoadUpdatesInOrder(sections: seq<Section>)
    requires Load(sections).Success?
    ensures |Load(sections).value.updates| == |UpdateSections(sections)|
    ensures Corresponds(Load(sections).value.updates, UpdateSections(sections))
  {
    BuildUpdatesCorrect(sections);
  }

  /** A `bot` section with a token and one incomplete section make the whole
      load fail, naming the first incomplete section; no partial list is returned. */
  lemma LoadFailsOnIncomplete(sections: seq<Section>)
    requires FindSection(sections, BotSection).Some?
    requires "token" in FindSection(sections, BotSection).value.entries
    requires !AllComplete(UpdateSections(sections))
    ensures Load(sections).Failure?
    ensures exists j :: FirstIncomplete(UpdateSections(sections), j)
                     && Load(sections).error == IncompleteSection(UpdateSections(sections)[j].name)
  {
    BuildUpdatesCorrect(sections);
  }

  /** `load_config`: the two `bot` checks, then one `Update` per other section. */
  method LoadConfig(sections: seq<Section>) returns (r: Result<Loaded, ConfigError>)
    ensures r == Load(sections)
  {
    var bot := FindSection(sections, BotSection);
    if bot.None? {
      return Failure(NoBotSection);
    }
    if "token" !in bot.value.entries {
      return Failure(NoToken);
    }
    var token := bot.value.entries["token"];
    var updates: seq<Update> := [];
    PrependAppend([], [], BuildUpdates(sections));
    assert sections[0..] == sections;
    for i := 0 to |sections|
      invariant BuildUpdates(sections) == Prepend(updates, BuildUpdates(sections[i..]))
    {
      assert sections[i..][1..] == sections[i + 1..];
      if sections[i].name != BotSection {
        var u := NewUpdate(sections[i]);
        if u.Failure? {
          return Failure(u.error);
        }
        PrependAppend(updates, [u.value], BuildUpdates(sections[i + 1..]));
        updates := updates + [u.value];
      }
    }
    assert sections[|sections|..] == [];
    assert updates + [] == updates;
    return Success(Loaded(token, updates));
  }
}
