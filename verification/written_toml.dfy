/** What a merged `config.toml` holds, with every literal of the file spelled out. */
module WrittenToml {
  import opened ClientTarget
  import opened CodexToml
  import opened Text

  /** The block as it must read back for this URL and token. */
  function Block(url: string, token: string): map<string, string> {
    map["name" := "Routerly", "base_url" := url, "wire_api" := "responses", "experimental_bearer_token" := token]
  }

  lemma ExpectedIsBlock(target: Target)
    ensures Expected(target) == Block(ToBaseUrl(target.baseUrl), target.token)
  {
    hide ToBaseUrl;
  }

  /** None of the four characters that end a line for a regular expression. */
  predicate OnOneLine(s: string) {
    forall i | 0 <= i < |s| :: s[i] !in "\n\r\U{2028}\U{2029}"
  }

  lemma OnOneLineIff(s: string)
    ensures OnOneLine(s) <==> NoTerminator(s)
  {
    forall i | 0 <= i < |s|
      ensures s[i] in "\n\r\U{2028}\U{2029}" <==> IsTerminator(s[i])
    {
      TerminatorIff(s[i]);
    }
  }

  lemma TerminatorIff(c: char)
    ensures c in "\n\r\U{2028}\U{2029}" <==> IsTerminator(c)
  {
    var all := "\n\r\U{2028}\U{2029}";
    assert all[0] == '\n' && all[1] == '\r' && all[2] == '\U{2028}' && all[3] == '\U{2029}';
  }

  /** The merged file gives back URL and token, whatever was in it, with or without a slash at the end. */
  lemma UrlReadsBack(existing: string, h: string, token: string)
    requires NoSlashEnd(h) && OnOneLine(h) && OnOneLine(token)
    ensures Extracted(MergedToml(existing, Target(h, token))) == Some(Block(h + "/v1", token))
    ensures Extracted(MergedToml(existing, Target(h + "/", token))) == Some(Block(h + "/v1", token))
    ensures Extracted(MergedToml(existing, Target(h + "//", token))) == Some(Block(h + "//v1", token))
  {
    hide Extracted, MergedToml, ToBaseUrl, Expected, Block, NoSlashEnd;
    WrittenUrl(h);
    OnOneLineIff(h);
    OnOneLineIff(token);
    SlashIsNoTerminator(h);
    hide NoTerminator;
    ReadsAs(existing, Target(h, token));
    ReadsAs(existing, Target(h + "/", token));
    ReadsAs(existing, Target(h + "//", token));
  }

  lemma SlashIsNoTerminator(h: string)
    requires NoTerminator(h)
    ensures NoTerminator(h + "/") && NoTerminator(h + "//")
  {
  }

  lemma ReadsAs(existing: string, target: Target)
    requires TerminatorFree(target)
    ensures Extracted(MergedToml(existing, target)) == Some(Block(ToBaseUrl(target.baseUrl), target.token))
  {
    hide *;
    MergedBlockReadsBack(existing, target);
    ExpectedIsBlock(target);
  }

  /** For any target: URL and token read back exactly if neither holds one of the four characters. */
  lemma UrlReadsBackIff(existing: string, h: string, token: string)
    requires NoSlashEnd(h)
    ensures (exists block: map<string, string> ::
               Extracted(MergedToml(existing, Target(h, token))) == Some(block) &&
                   HasUrlAndToken(block, h + "/v1", token))
            <==> OnOneLine(h) && OnOneLine(token)
  {
    hide Extracted, MergedToml, ToBaseUrl, NoSlashEnd;
    WrittenUrl(h);
    OnOneLineIff(h);
    OnOneLineIff(token);
    ReadsBackIffTerminatorFree(existing, Target(h, token));
    var found := Extracted(MergedToml(existing, Target(h, token)));
    if OnOneLine(h) && OnOneLine(token) {
      assert HasUrlAndToken(found.value, h + "/v1", token);
    }
  }

  predicate HasUrlAndToken(block: map<string, string>, url: string, token: string) {
    && "base_url" in block && block["base_url"] == url
    && "experimental_bearer_token" in block && block["experimental_bearer_token"] == token
  }

  /** The lines of the provider table. */
  function BlockLinesFor(url: string, token: string): seq<string> {
    [ "[model_providers.routerly]",
      "name = \"Routerly\"",
      "base_url = \"" + url + "\"",
      "wire_api = \"responses\"",
      "experimental_bearer_token = \"" + token + "\"" ]
  }

  /** The output, line by line. */
  lemma MergedLinesAre(existing: string, h: string, token: string)
    requires NoSlashEnd(h) && NoBreak(h) && NoBreak(token)
    ensures Lines(MergedToml(existing, Target(h, token)))
         == ["model_provider = \"routerly\""] + (Padded(Rest(existing))
            + ([""] + BlockLinesFor(h + "/v1", token) + [""]))
  {
    WrittenUrl(h);
    SelectorIs();
    hide SplitOn, MergedToml, ToBaseUrl, ProviderBlock, BlockLinesFor, Padded, Rest, NoBreak, NoSlashEnd;
    MergedLines(existing, Target(h, token));
    BreakFreeStaysOneTable(Target(h, token));
    BlockIs(Target(h, token));
  }

  lemma SelectorIs()
    ensures SELECTOR == "model_provider = \"routerly\""
  {
  }

  lemma BlockIs(target: Target)
    ensures ProviderBlock(target) == BlockLinesFor(ToBaseUrl(target.baseUrl), target.token)
  {
    hide ToBaseUrl, FieldLine;
    NameLine();
    WireLine();
    UrlLine(ToBaseUrl(target.baseUrl));
    TokenLine(target.token);
  }

  lemma NameLine()
    ensures FieldLine(NAME_KEY, NAME_VALUE) == "name = \"Routerly\""
  {
  }

  lemma WireLine()
    ensures FieldLine(WIRE_KEY, WIRE_VALUE) == "wire_api = \"responses\""
  {
  }

  lemma UrlLine(url: string)
    ensures FieldLine(URL_KEY, url) == "base_url = \"" + url + "\""
  {
    Quoted(URL_KEY, " = \"", url, "\"");
  }

  lemma TokenLine(token: string)
    ensures FieldLine(TOKEN_KEY, token) == "experimental_bearer_token = \"" + token + "\""
  {
    Quoted(TOKEN_KEY, " = \"", token, "\"");
  }

  lemma Quoted(a: string, b: string, c: string, d: string)
    ensures a + (b + (c + d)) == a + b + c + d
  {
  }
}
