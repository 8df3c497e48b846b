/** What a merged `config.yaml` holds, with every literal of the file spelled out, and what its lines are. */
module WrittenYaml {
  import opened ClientTarget
  import opened ContinueYaml
  import opened Text

  // ----- the URL

  /** None of the 25 characters that `\s` matches. */
  predicate IsOnePiece(s: string) {
    forall i | 0 <= i < |s| :: s[i] !in SPACES
  }

  lemma OnePieceIff(s: string)
    ensures IsOnePiece(s) <==> NoSpace(s)
  {
    hide SPACES, IsSpace;
    forall i | 0 <= i < |s|
      ensures s[i] in SPACES <==> IsSpace(s[i])
    {
      SpacesAre(s[i]);
    }
  }

  /** The URL that reads back from a merged file, whatever was in it and whatever the token is. */
  lemma UrlReadsBack(raw: string, h: string, token: string)
    requires NoSlashEnd(h) && IsOnePiece(h)
    ensures CurrentBaseUrl(MergedYaml(raw, Target(h, token))) == Some(h + "/v1")
    ensures CurrentBaseUrl(MergedYaml(raw, Target(h + "/", token))) == Some(h + "/v1")
    ensures CurrentBaseUrl(MergedYaml(raw, Target(h + "//", token))) == Some(h + "//v1")
  {
    hide CurrentBaseUrl, MergedYaml, ToBaseUrl, NoSlashEnd, IsOnePiece;
    WrittenUrl(h);
    OnePieceIff(h);
    SlashIsNoSpace(h);
    hide NoSpace;
    ReadsBackIffNoSpace(raw, Target(h, token));
    ReadsBackIffNoSpace(raw, Target(h + "/", token));
    ReadsBackIffNoSpace(raw, Target(h + "//", token));
  }

  lemma SlashIsNoSpace(h: string)
    requires NoSpace(h)
    ensures NoSpace(h + "/") && NoSpace(h + "//")
  {
  }

  /** And it reads back only if the server URL holds none of the 25 characters. */
  lemma UrlReadsBackIff(raw: string, h: string, token: string)
    requires NoSlashEnd(h)
    ensures CurrentBaseUrl(MergedYaml(raw, Target(h, token))) == Some(h + "/v1") <==> IsOnePiece(h)
  {
    hide CurrentBaseUrl, MergedYaml, ToBaseUrl, NoSlashEnd, IsOnePiece, NoSpace;
    WrittenUrl(h);
    OnePieceIff(h);
    ReadsBackIffNoSpace(raw, Target(h, token));
  }

  // ----- the lines that are written

  function EntryLines(indent: string, url: string, token: string): seq<string> {
    [ indent + "- name: Routerly (auto-routed)",
      indent + "  provider: openai",
      indent + "  model: routerly/ada",
      indent + "  apiBase: " + url,
      indent + "  apiKey: " + token ]
  }

  lemma BlockIs(indent: string, target: Target)
    ensures BuildBlock(indent, target) == EntryLines(indent, ToBaseUrl(target.baseUrl), target.token)
  {
    ModelLine(indent);
    KeyLine(indent, ToBaseUrl(target.baseUrl));
    ProviderLine(indent);
    TokenLine(indent, target.token);
    var url := ToBaseUrl(target.baseUrl);
    hide ToBaseUrl;
  }

  lemma ProviderLine(indent: string)
    ensures indent + "  " + "provider: openai" == indent + "  provider: openai"
  {
    assert "  " + "provider: openai" == "  provider: openai";
    Assoc(indent, "  ", "provider: openai");
  }

  lemma ModelLine(indent: string)
    ensures indent + "  " + MODEL_MARKER == indent + "  model: routerly/ada"
  {
    assert "  " + MODEL_MARKER == "  model: routerly/ada";
    Assoc(indent, "  ", MODEL_MARKER);
  }

  lemma KeyLine(indent: string, url: string)
    ensures indent + "  " + (API_BASE_KEY + (" " + url)) == indent + "  apiBase: " + url
  {
    assert "  " + (API_BASE_KEY + " ") == "  apiBase: ";
    Assoc(API_BASE_KEY, " ", url);
    Assoc(indent, "  ", API_BASE_KEY + " ");
    Assoc(indent + "  ", API_BASE_KEY + " ", url);
  }

  lemma TokenLine(indent: string, token: string)
    ensures indent + "  " + ("apiKey: " + token) == indent + "  apiKey: " + token
  {
    Assoc(indent, "  ", "apiKey: ");
    Assoc(indent + "  ", "apiKey: ", token);
  }

  lemma Assoc(a: string, b: string, c: string)
    ensures a + (b + c) == a + b + c
  {
  }

  /** A new file, line by line. */
  lemma NewFileIs(h: string, token: string)
    requires NoSlashEnd(h) && NoBreak(h) && NoBreak(token)
    ensures FileLines(MergedYaml("", Target(h, token)))
         == ["name: Routerly", "version: 0.0.1", "schema: v1", "", "models:"]
            + EntryLines("  ", h + "/v1", token) + [""]
  {
    hide MergedYaml, ToBaseUrl, EntryLines, BuildBlock, NoSlashEnd, NoBreak;
    WrittenUrl(h);
    BlockIs("  ", Target(h, token));
    MergeWithoutKeyIsLiteral("", Target(h, token));
  }
}
