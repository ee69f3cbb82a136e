/** The configuration generator of the Docker image: it builds the text of a
    configuration file from four environment variables, the token and three
    `;`-separated lists (chat ids, categories, buzzword chunks) that are paired
    by position. */
module DockerConfig {
  import opened Wrappers
  import opened Text

  /** The script's two exceptions: a missing variable (`KeyError`) and a list
      shorter than the category list (`IndexError`). */
  datatype GenError = MissingVariable(name: string) | IndexError

  const TokenVar := "AUB_TOKEN"
  const ChatIdsVar := "AUB_CHAT_IDS"
  const CategoriesVar := "AUB_CATEGORIES"
  const BuzzwordsVar := "AUB_BUZZWORDS"

  function Header(token: string): string
  {
    "[bot]\n" + "token = " + token + "\n"
  }

  /** The template filled in for one category. */
  function SectionText(category: string, chatId: string, buzzwords: string): string
  {
    "\n" + "[" + category + "]" + "\n" + "chat_id = " + chatId + "\n" + "category = " + category + "\n"
      + "buzzwords = " + buzzwords + "\n"
  }

  /** The sections for all categories, in order, the i-th one filled with the
      i-th chat id and the i-th buzzword chunk. */
  function SectionsText(categories: seq<string>, chatIds: seq<string>, buzzwords: seq<string>): string
    requires |chatIds| >= |categories| && |buzzwords| >= |categories|
  {
    if |categories| == 0 then ""
    else SectionText(categories[0], chatIds[0], buzzwords[0])
           + SectionsText(categories[1..], chatIds[1..], buzzwords[1..])
  }

  /** The loop of the script: the header, then one section per category. It
      fails with `IndexError` exactly when there are fewer chat ids or fewer
      buzzword chunks than categories; extra ones are never read. */
  method Generate(token: string, chatIds: seq<string>, categories: seq<string>, buzzwords: seq<string>)
    returns (r: Result<string, GenError>)
    ensures r.Failure? <==> |chatIds| < |categories| || |buzzwords| < |categories|
    ensures r.Failure? ==> r.error == IndexError
    ensures r.Success? ==> r.value == Header(token) + SectionsText(categories, chatIds, buzzwords)
  {
    var res := "[bot]\n";
    res := res + "token = " + token + "\n";
    assert categories[0..] == categories && chatIds[0..] == chatIds && buzzwords[0..] == buzzwords;
    for i := 0 to |categories|
      invariant i <= |chatIds| && i <= |buzzwords|
      invariant |chatIds| >= |categories| && |buzzwords| >= |categories| ==>
                  res + SectionsText(categories[i..], chatIds[i..], buzzwords[i..])
                  == Header(token) + SectionsText(categories, chatIds, buzzwords)
    {
      if i >= |chatIds| || i >= |buzzwords| {
        return Failure(IndexError);
      }
      assert categories[i..][1..] == categories[i + 1..];
      assert chatIds[i..][1..] == chatIds[i + 1..];
      assert buzzwords[i..][1..] == buzzwords[i + 1..];
      res := res + SectionText(categories[i], chatIds[i], buzzwords[i]);
    }
    assert res + SectionsText(categories[|categories|..], chatIds[|categories|..], buzzwords[|categories|..]) == res + "";
    return Success(res);
  }

  /** The whole script: read the four variables in the script's order, split
      the three lists on `;` (no trimming), then generate. */
  method GenerateFromEnvironment(env: map<string, string>) returns (r: Result<string, GenError>)
    ensures TokenVar !in env ==> r == Failure(MissingVariable(TokenVar))
    ensures TokenVar in env && ChatIdsVar !in env ==> r == Failure(MissingVariable(ChatIdsVar))
    ensures TokenVar in env && ChatIdsVar in env && CategoriesVar !in env ==> r == Failure(MissingVariable(CategoriesVar))
    ensures (TokenVar in env && ChatIdsVar in env && CategoriesVar in env && BuzzwordsVar !in env)
              ==> r == Failure(MissingVariable(BuzzwordsVar))
    ensures TokenVar in env && ChatIdsVar in env && CategoriesVar in env && BuzzwordsVar in env ==>
              var chatIds := Split(env[ChatIdsVar], ';');
              var categories := Split(env[CategoriesVar], ';');
              var buzzwords := Split(env[BuzzwordsVar], ';');
              && (r.Failure? <==> |chatIds| < |categories| || |buzzwords| < |categories|)
              && (r.Failure? ==> r.error == IndexError)
              && (r.Success? ==> r.value == Header(env[TokenVar]) + SectionsText(categories, chatIds, buzzwords))
  {
    if TokenVar !in env {
      return Failure(MissingVariable(TokenVar));
    }
    var token := env[TokenVar];
    if ChatIdsVar !in env {
      return Failure(MissingVariable(ChatIdsVar));
    }
    var chatIds := Split(env[ChatIdsVar], ';');
    if CategoriesVar !in env {
      return Failure(MissingVariable(CategoriesVar));
    }
    var categories := Split(env[CategoriesVar], ';');
    if BuzzwordsVar !in env {
      return Failure(MissingVariable(BuzzwordsVar));
    }
    var buzzwords := Split(env[BuzzwordsVar], ';');
    r := Generate(token, chatIds, categories, buzzwords);
  }

  /** Trailing chat ids and buzzword chunks beyond the categories change nothing. */
  lemma {:induction false} ExtraEntriesIgnored(categories: seq<string>, chatIds: seq<string>, buzzwords: seq<string>)
    requires |chatIds| >= |categories| && |buzzwords| >= |categories|
    ensures SectionsText(categories, chatIds, buzzwords)
         == SectionsText(categories, chatIds[..|categories|], buzzwords[..|categories|])
  {
    if |categories| > 0 {
      var n := |categories|;
      ExtraEntriesIgnored(categories[1..], chatIds[1..], buzzwords[1..]);
      assert chatIds[..n][1..] == chatIds[1..][..n - 1];
      assert buzzwords[..n][1..] == buzzwords[1..][..n - 1];
    }
  }

  predicate NoNewline(s: string)
  {
    '\n' !in s
  }

  /** The lines of all the sections, five per category, in category order. */
  function SectionLines(categories: seq<string>, chatIds: seq<string>, buzzwords: seq<string>): seq<string>
    requires |chatIds| >= |categories| && |buzzwords| >= |categories|
  {
    if |categories| == 0 then []
    else ["", "[" + categories[0] + "]", "chat_id = " + chatIds[0], "category = " + categories[0],
          "buzzwords = " + buzzwords[0]]
         + SectionLines(categories[1..], chatIds[1..], buzzwords[1..])
  }

  /** Five separator-free lines, each ended by the separator, split off in order. */
  lemma SplitFiveLines(l0: string, l1: string, l2: string, l3: string, l4: string, rest: string)
    requires NoNewline(l0) && NoNewline(l1) && NoNewline(l2) && NoNewline(l3) && NoNewline(l4)
    ensures Split(l0 + "\n" + (l1 + "\n" + (l2 + "\n" + (l3 + "\n" + (l4 + "\n" + rest)))), '\n')
         == [l0, l1, l2, l3, l4] + Split(rest, '\n')
  {
    var t4 := l4 + "\n" + rest;
    var t3 := l3 + "\n" + t4;
    var t2 := l2 + "\n" + t3;
    var t1 := l1 + "\n" + t2;
    SplitLine(l4, rest, '\n');
    SplitLine(l3, t4, '\n');
    SplitLine(l2, t3, '\n');
    SplitLine(l1, t2, '\n');
    SplitLine(l0, t1, '\n');
  }

  lemma SectionLinesNoNewline(c: string, id: string, b: string)
    requires NoNewline(c) && NoNewline(id) && NoNewline(b)
    ensures NoNewline("[" + c + "]") && NoNewline("chat_id = " + id)
    ensures NoNewline("category = " + c) && NoNewline("buzzwords = " + b)
  {
  }

  lemma SectionTextNested(c: string, id: string, b: string, rest: string)
    ensures SectionText(c, id, b) + rest
         == "" + "\n" + ("[" + c + "]" + "\n" + ("chat_id = " + id + "\n"
              + ("category = " + c + "\n" + ("buzzwords = " + b + "\n" + rest))))
  {
  }

  /** Read line by line, one section is a blank line, its header, and its three keys. */
  lemma SectionTextLines(c: string, id: string, b: string, rest: string)
    requires NoNewline(c) && NoNewline(id) && NoNewline(b)
    ensures Split(SectionText(c, id, b) + rest, '\n')
         == ["", "[" + c + "]", "chat_id = " + id, "category = " + c, "buzzwords = " + b] + Split(rest, '\n')
  {
    SectionLinesNoNewline(c, id, b);
    SectionTextNested(c, id, b, rest);
    SplitFiveLines("", "[" + c + "]", "chat_id = " + id, "category = " + c, "buzzwords = " + b, rest);
  }

  lemma {:induction false} SectionsLines(categories: seq<string>, chatIds: seq<string>, buzzwords: seq<string>)
    requires |chatIds| >= |categories| && |buzzwords| >= |categories|
    requires forall i | 0 <= i < |categories| :: NoNewline(categories[i]) && NoNewline(chatIds[i]) && NoNewline(buzzwords[i])
    ensures Split(SectionsText(categories, chatIds, buzzwords), '\n') == SectionLines(categories, chatIds, buzzwords) + [""]
  {
    if |categories| == 0 {
      assert SectionLines(categories, chatIds, buzzwords) + [""] == [""];
    } else {
      SectionsLines(categories[1..], chatIds[1..], buzzwords[1..]);
      SectionTextLines(categories[0], chatIds[0], buzzwords[0], SectionsText(categories[1..], chatIds[1..], buzzwords[1..]));
    }
  }

  /** Section `i`, read line by line, is a blank line, the header
      `[category]`, the chat id, `category = category` with the same category
      string, and the buzzword chunk verbatim (commas included). */
  lemma {:induction false} SectionLinesAt(categories: seq<string>, chatIds: seq<string>, buzzwords: seq<string>, i: nat)
    requires |chatIds| >= |categories| && |buzzwords| >= |categories|
    requires i < |categories|
    ensures |SectionLines(categories, chatIds, buzzwords)| == 5 * |categories|
    ensures SectionLines(categories, chatIds, buzzwords)[5 * i..5 * i + 5]
         == ["", "[" + categories[i] + "]", "chat_id = " + chatIds[i], "category = " + categories[i],
             "buzzwords = " + buzzwords[i]]
  {
    var lines := SectionLines(categories, chatIds, buzzwords);
    if i > 0 {
      SectionLinesAt(categories[1..], chatIds[1..], buzzwords[1..], i - 1);
      assert lines[5 * i..5 * i + 5] == SectionLines(categories[1..], chatIds[1..], buzzwords[1..])[5 * (i - 1)..5 * (i - 1) + 5];
    } else if |categories| > 1 {
      SectionLinesAt(categories[1..], chatIds[1..], buzzwords[1..], 0);
    }
  }

  lemma HeaderLines(token: string, rest: string)
    requires NoNewline(token)
    ensures Split(Header(token) + rest, '\n') == ["[bot]", "token = " + token] + Split(rest, '\n')
  {
    var tokenLine := "token = " + token;
    assert NoNewline(tokenLine);
    assert Header(token) + rest == "[bot]" + "\n" + (tokenLine + "\n" + rest);
    SplitLine(tokenLine, rest, '\n');
    SplitLine("[bot]", tokenLine + "\n" + rest, '\n');
  }

  /** Read line by line, the generated file is `[bot]`, the token line, the
      lines of every section in category order, and a final empty piece after
      the last newline. */
  lemma GeneratedFileLines(token: string, categories: seq<string>, chatIds: seq<string>, buzzwords: seq<string>)
    requires |chatIds| >= |categories| && |buzzwords| >= |categories|
    requires NoNewline(token)
    requires forall j | 0 <= j < |categories| :: NoNewline(categories[j]) && NoNewline(chatIds[j]) && NoNewline(buzzwords[j])
    ensures Split(Header(token) + SectionsText(categories, chatIds, buzzwords), '\n')
         == ["[bot]", "token = " + token] + SectionLines(categories, chatIds, buzzwords) + [""]
  {
    HeaderLines(token, SectionsText(categories, chatIds, buzzwords));
    SectionsLines(categories, chatIds, buzzwords);
  }

  /** The generated file has three lines besides the five of each section:
      `[bot]`, the token line, and the empty piece after the last newline. */
  lemma GeneratedFrame(token: string, categories: seq<string>, chatIds: seq<string>, buzzwords: seq<string>)
    requires |chatIds| >= |categories| && |buzzwords| >= |categories|
    requires NoNewline(token)
    requires forall j | 0 <= j < |categories| :: NoNewline(categories[j]) && NoNewline(chatIds[j]) && NoNewline(buzzwords[j])
    ensures var lines := Split(Header(token) + SectionsText(categories, chatIds, buzzwords), '\n');
            && |lines| == 3 + 5 * |categories|
            && lines[0] == "[bot]" && lines[1] == "token = " + token && lines[|lines| - 1] == ""
  {
    GeneratedFileLines(token, categories, chatIds, buzzwords);
    if |categories| > 0 {
      SectionLinesAt(categories, chatIds, buzzwords, 0);
    } else {
      assert SectionLines(categories, chatIds, buzzwords) == [];
    }
    var lines := Split(Header(token) + SectionsText(categories, chatIds, buzzwords), '\n');
    FramedSlice(lines, "[bot]", "token = " + token, SectionLines(categories, chatIds, buzzwords), 0, 0);
  }

  lemma FramedSlice(lines: seq<string>, first: string, second: string, body: seq<string>, lo: nat, hi: nat)
    requires lines == [first, second] + body + [""]
    requires lo <= hi <= |body|
    ensures |lines| == |body| + 3
    ensures lines[0] == first && lines[1] == second && lines[|lines| - 1] == ""
    ensures lines[2 + lo..2 + hi] == body[lo..hi]
  {
    assert forall k | lo <= k < hi :: lines[2 + k] == body[k];
  }
}
