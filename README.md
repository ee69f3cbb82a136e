# arxiv-update-bot, modelled in Dafny

arxiv-update-bot is a small Telegram bot. It reads an INI configuration. The
`[bot]` section holds the bot token, and every other section is a
subscription (an `Update`): an arXiv category, a chat id and a
comma-separated list of buzzwords. For each subscription it fetches the
category's RSS feed, keeps the entries whose lower-cased title contains a
buzzword, and sends a summary message and one message per kept entry to the
chat. A print-info mode sends each chat its configuration instead. A quiet
mode suppresses the "nothing found" message. A separate script in the Docker
image builds the INI file from four environment variables.

The model covers the following:

- `text.dfy` (`Text`) holds the Python string operations the program relies on:
  - `str.split` on one character;
  - `join`;
  - `str.lower` on ASCII letters;
  - substring test (`in`);
  - decimal formatting of a count.
- `config_loader.dfy` (`ConfigLoader`) models `Update.__init__` and `load_config`. The INI file arrives already parsed, as the ordered list of its sections.
- `keyword_filter.dfy` (`KeywordFilter`) models the two nested loops of `get_articles`. Feed entries arrive as a sequence.
- `notifier.dfy` (`Notifier`) models `send_articles` and the loop of `main`:
  - the Telegram client is a `Bot` class whose `SendMessage` appends to a message log;
  - the feed of a category is a function `fetch` from category to entries.
- `docker_config.dfy` (`DockerConfig`) models the script that templates the configuration file.
- `scenario.dfy` (`Scenario`) covers a whole run. It has one subscription with two buzzwords and a feed of two entries. In the concrete instance, section `[cs]` watches `cs.AI` for `transformer,diffusion`. The feed holds "A New Transformer Architecture" and "Unrelated Topic". The match of the capitalised title is derived, not assumed.

Each loop of the program is a Dafny method with a loop, proved equal to a
recursive function. The properties are proved about those functions.

Some behaviours of the code may differ from what a reader expects. The
model follows the code in each case:

- **Matching is case-insensitive only on the title side.** A reader might expect a case-insensitive match on both sides. The code lower-cases the title but not the buzzword. A lower-case buzzword therefore matches the title in any case (`KeywordFilter.MatchesIgnoringCase`). A buzzword with an upper-case letter never matches (`KeywordFilter.CapitalisedBuzzwordsSelectNothing`).
- **Only presence of the three keys is checked.** A reader might expect category, chat id and buzzwords to be required non-empty. The code checks only that the three keys are present. An empty value is accepted, and an empty buzzword matches every title.
- **An entry is kept once per matching buzzword.** A reader might expect each entry at most once. The code appends the entry once per matching buzzword, and the model keeps that behaviour (`KeywordFilter.FilteredShape`).
- **An entry with no author stops the run.** A reader might expect every entry to have an author. The code reads the first author of each matched entry. An empty author list raises `IndexError`, which ends `send_articles` and the rest of the run (`Notifier.DispatchStopsAtFirstCrash`). The model records this as `crashed`.

## Model

| member | source | states |
|---|---|---|
| ConfigLoader.NewUpdate | arxiv_update_bot/main.py:37-43 | fails, naming the section, exactly when category, chat_id or buzzwords is missing; otherwise category and chat id are copied unchanged; buzzwords is a non-empty list of comma-free pieces that joins back with "," to the raw value |
| ConfigLoader.FindSection | arxiv_update_bot/main.py:65-70 | finds a section exactly when one with that name exists, and returns a section of the list with that name |
| ConfigLoader.Load | arxiv_update_bot/main.py:65-79 | no `bot` section gives NoBotSection, and a `bot` section without token gives NoToken, whatever the other sections hold; on success the token is the `bot` section's token |
| ConfigLoader.BuildUpdatesCorrect | arxiv_update_bot/main.py:74-79 | the update loop succeeds iff every non-`bot` section is complete; then the updates correspond one to one, in order, with those sections; otherwise the error names the first incomplete one |
| ConfigLoader.LoadSucceedsIff | arxiv_update_bot/main.py:65-79 | loading succeeds iff there is a `bot` section with a token and every other section is complete |
| ConfigLoader.LoadUpdatesInOrder | arxiv_update_bot/main.py:74-79 | on success there is one update per non-`bot` section, built from it, in file order |
| ConfigLoader.LoadFailsOnIncomplete | arxiv_update_bot/main.py:76-78 | with a valid `bot` section, one incomplete section makes the whole load fail, naming the first incomplete section; no partial list is returned |
| ConfigLoader.LoadConfig | arxiv_update_bot/main.py:46-79 | the method with its loop over the sections computes exactly `Load` |
| Text.JoinSplit | arxiv_update_bot/main.py:43 | joining the pieces of a one-character split with that character gives back the original string |
| Text.SplitJoin | docker/parse_config.py:4-6 | splitting the join of a non-empty list of separator-free pieces gives back the pieces, so no piece is trimmed or dropped |
| Text.Lower | arxiv_update_bot/main.py:99 | lower-casing keeps the length, maps each upper-case letter to its lower-case letter (code + 32), leaves no upper-case letter and changes no other character |
| Text.LetterAbsentAfterLower | arxiv_update_bot/main.py:99 | a lower-case letter whose lower- and upper-case forms are both absent from a text is absent from the lower-cased text |
| Text.MissingCharNeverContained | arxiv_update_bot/main.py:99 | a pattern holding a character the text lacks is not a substring of it |
| Text.ContainsIffOccurs | arxiv_update_bot/main.py:99 | the substring test holds iff the pattern occurs at some position of the text |
| Text.UpperNeverInLower | arxiv_update_bot/main.py:99 | a pattern holding an upper-case letter is never a substring of a lower-cased text |
| Text.NatToStringRoundTrip | arxiv_update_bot/main.py:132 | the decimal text of a count reads back as that count |
| KeywordFilter.Hits | arxiv_update_bot/main.py:98-100 | a title is appended at most once per buzzword |
| KeywordFilter.HitsPositiveIff | arxiv_update_bot/main.py:98-100 | an entry is appended at least once iff some buzzword is a substring of its lower-cased title |
| KeywordFilter.FilteredLength | arxiv_update_bot/main.py:96-102 | the result length is the total number of (entry, matching buzzword) pairs, at most entries times buzzwords |
| KeywordFilter.OriginsPoint | arxiv_update_bot/main.py:97-100 | every result element is the feed entry its origin index names |
| KeywordFilter.OriginsSorted | arxiv_update_bot/main.py:97-100 | origin indices never decrease: feed order is kept and copies of one entry are contiguous |
| KeywordFilter.OriginsCount | arxiv_update_bot/main.py:97-100 | feed entry i is copied exactly as many times as buzzwords match its title |
| KeywordFilter.FilteredShape | arxiv_update_bot/main.py:96-102 | element k is feed entry Origins[k], origins are non-decreasing, and entry i occurs once per matching buzzword |
| KeywordFilter.FilteredMembership | arxiv_update_bot/main.py:97-100 | an entry is in the result iff it is in the feed and some buzzword matches its title |
| KeywordFilter.MatchesIgnoringCase | arxiv_update_bot/main.py:99 | for a buzzword without upper-case letters, it matches iff at some position every title character is the buzzword's character or its upper-case form |
| KeywordFilter.CapitalisedBuzzwordsSelectNothing | arxiv_update_bot/main.py:99 | if every buzzword holds an upper-case letter, nothing is selected from any feed |
| KeywordFilter.GetArticles | arxiv_update_bot/main.py:96-102 | the nested loops compute exactly `Filtered` |
| Notifier.Bot.constructor | arxiv_update_bot/main.py:170 | the bot is created with the configured token and has sent nothing |
| Notifier.Bot.SendMessage | arxiv_update_bot/main.py:135-138 | sending appends exactly that message to the log |
| Notifier.ArticleMessagesShape | arxiv_update_bot/main.py:134-138 | message k is the text of article k, which has an author; the loop stops early exactly at the first article without an author |
| Notifier.SendPlanShape | arxiv_update_bot/main.py:123-138 | 0 messages (quiet) or 1 when nothing matched; N+1 when all N articles have authors; every message goes to the chat; the first states N, the rest follow article order; a crash happens iff some article lacks an author |
| Notifier.SummaryStatesCount | arxiv_update_bot/main.py:130-133 | the summary starts with its fixed prefix followed by the decimal digits of the article count |
| Notifier.PrintInfoOnePerUpdate | arxiv_update_bot/main.py:172-177 | print-info mode sends exactly one message per update, to that update's chat, describing it, in update order |
| Notifier.DispatchOnlyToConfiguredChats | arxiv_update_bot/main.py:172-185 | every message sent goes to the chat of some configured update |
| Notifier.DispatchCompletes | arxiv_update_bot/main.py:172-185 | when every matched entry has an author (unmatched entries are never read), the run does not stop early and sends, update by update, the `send_articles` message count |
| Notifier.DispatchCrashesIff | arxiv_update_bot/main.py:172-185 | outside print-info mode the run stops early iff some update's matched entries include one without an author |
| Notifier.DispatchStopsAtFirstCrash | arxiv_update_bot/main.py:172-185 | when update i is the first to stop, the run stops: it has sent the blocks of updates 0 to i, in order, and nothing for later updates |
| Notifier.DispatchWithoutCrash | arxiv_update_bot/main.py:172-185 | when no update stops, the run sends every update's block, in order |
| Notifier.MainPlan | arxiv_update_bot/main.py:168-185 | the run is refused exactly when loading fails, with loading's error; otherwise the bot runs with the loaded token |
| Notifier.SendArticles | arxiv_update_bot/main.py:121-138 | the method appends to the bot's log exactly the messages of `SendPlan` for the filtered feed, and reports its crash |
| Notifier.SendEach | arxiv_update_bot/main.py:134-138 | the loop over the articles appends exactly the messages of `ArticleMessages`, and reports whether it stopped early |
| Notifier.Dispatch | arxiv_update_bot/main.py:172-185 | the loop over the updates appends exactly the messages of `DispatchPlan` |
| Notifier.RunMain | arxiv_update_bot/main.py:168-185 | load, create the bot, dispatch: computes exactly `MainPlan` |
| DockerConfig.Generate | docker/parse_config.py:15-21 | fails with IndexError iff fewer chat ids or buzzword chunks than categories; otherwise the output is the `[bot]` header and token line followed by one section per category, filled by position |
| DockerConfig.GenerateFromEnvironment | docker/parse_config.py:3-21 | a missing variable fails with KeyError naming the first missing one in the order TOKEN, CHAT_IDS, CATEGORIES, BUZZWORDS; otherwise the lists are split on ";" and generated |
| DockerConfig.ExtraEntriesIgnored | docker/parse_config.py:18-21 | chat ids and buzzword chunks beyond the number of categories do not change the output |
| DockerConfig.SectionTextLines | docker/parse_config.py:8-13 | when the category, chat id and chunk hold no newline, one filled template reads as a blank line, `[category]`, `chat_id = id`, `category = category`, `buzzwords = chunk` |
| DockerConfig.GeneratedFileLines | docker/parse_config.py:8-21 | when the token and every category, chat id and chunk hold no newline, the generated file reads, line by line, as `[bot]`, the token line, the five lines of each section in category order, then an empty final piece |
| DockerConfig.GeneratedFrame | docker/parse_config.py:15-21 | when the token and every category, chat id and chunk hold no newline, the generated file has 3 + 5 per category lines, starting with `[bot]` and the token line and ending with the empty piece after the last newline |
| DockerConfig.SectionLinesAt | docker/parse_config.py:8-21 | in the lines of all sections, the five lines of section i pair category i with chat id i and buzzword chunk i, verbatim, and name the category both in its header and in `category =` |
| Scenario.ExampleLoads | arxiv_update_bot/main.py:65-79 | a `bot` section plus one section with buzzwords "w1,w2" loads as that token and one update with buzzwords [w1, w2] |
| Scenario.ExampleFilter | arxiv_update_bot/main.py:96-102 | with one entry matching the first buzzword and one matching none, only the first is kept, once |
| Scenario.ExampleRun | arxiv_update_bot/main.py:168-185 | that configuration and feed make the bot send exactly the summary for one article, then that article |
| Scenario.TransformerMatchesHitTitle | arxiv_update_bot/main.py:99 | "transformer" matches the title "A New Transformer Architecture" despite its capital T |
| Scenario.DiffusionMissesHitTitle | arxiv_update_bot/main.py:99 | "diffusion" does not match "A New Transformer Architecture" |
| Scenario.TransformerMissesMissTitle | arxiv_update_bot/main.py:99 | "transformer" does not match "Unrelated Topic" |
| Scenario.DiffusionMissesMissTitle | arxiv_update_bot/main.py:99 | "diffusion" does not match "Unrelated Topic" |
| Scenario.ConcreteRun | arxiv_update_bot/main.py:168-185 | section `[cs]` on `cs.AI` with "transformer,diffusion" and that two-entry feed sends exactly the summary for one article, then "A New Transformer Architecture" |

## Left out

- The RSS fetch (`feedparser` over the network) is left out. The feed of a category is the parameter `fetch`, a function of the category. The program fetches the feed again for each update, so two updates on the same category could see different feeds. In the model they see the same one within a run. An entry keeps only its title, the names of its authors and its id.
- The Telegram client is left out. `Bot` records each `(chat id, text)` in a log, in order. The HTML parse mode, network errors and rate limits are not modelled.
- The reading of the INI file by `configparser` is left out. The model starts from the parsed, ordered list of sections. DEFAULT-section inheritance, lower-casing of keys, `%(name)s` value interpolation (and its error on a bare `%`), duplicate-section errors and a missing file read as empty are not modelled.
- The command-line parsing and the default configuration path are left out. `quiet` and `printInfo` are booleans given to the run.
- The generator's reads of the process environment become a map given to `GenerateFromEnvironment`. Its final `print` is the returned string; the newline `print` adds after it is not modelled.
- DockerConfig.GeneratedFileLines: the line-by-line lemmas (also `GeneratedFrame`, `SectionTextLines`) assume no value holds a newline. The script copies a newline inside the token or a list item into the file unchanged, which changes the line structure. `Generate` still states the exact output string in that case.
- Text.Lower: only ASCII letters are lower-cased, because Unicode case mapping is not modelled.
- The chat id stays the string read from the configuration. It is never converted to the `int` its annotation names.
- The `Update` class becomes a datatype, because its fields are assigned once, in its constructor, and never changed.
- The exceptions of `load_config`, `send_articles` and the generator become error values: `ConfigError`, the `crashed` flag of `Delivery`, and `GenError`. Their message texts are not modelled.
