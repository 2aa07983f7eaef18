/**
 * Website context (buildWebsiteContext): the optional block of scraped
 * website facts appended to the demo system prompt.
 */
module Website {
  import opened Wrappers
  import opened Text
  import opened Types

  /** The labelled line of an optional field, when the field is set (present and not empty). */
  function FieldLine(name: string, value: Option<string>): seq<string> {
    if Truthy(value) then [name + value.value] else []
  }

  /** The same, with the value in double quotes. */
  function QuotedFieldLine(name: string, value: Option<string>): seq<string> {
    if Truthy(value) then [name + "\"" + value.value + "\""] else []
  }

  /** The labelled lines of the six fields the composer reads, in output order. The raw page text
      and the scraped service list are not among them. */
  function WebsiteLines(wd: WebsiteData): seq<string> {
    FieldLine("**Company Description:** ", wd.description) +
    QuotedFieldLine("**Tagline:** ", wd.tagline) +
    FieldLine("**About the Business:** ", wd.aboutUs) +
    FieldLine("**Business Phone:** ", wd.phone) +
    FieldLine("**Business Email:** ", wd.email) +
    FieldLine("**Address:** ", wd.address)
  }

  predicate AnyWebsiteField(wd: WebsiteData) {
    Truthy(wd.description) || Truthy(wd.tagline) || Truthy(wd.aboutUs) ||
    Truthy(wd.phone) || Truthy(wd.email) || Truthy(wd.address)
  }

  /** The block around the lines: heading, the lines separated by blank lines, closing instruction. */
  function ContextBlock(lines: seq<string>): string {
    "\n" + ("---\n\n## Additional Business Context (from website)\n\n" + Join(lines, "\n\n") + "\n\n" +
      ("Use this information to provide more personalized and accurate " +
       "responses. Reference the company's unique qualities when appropriate.\n"))
  }

  /** The context: nothing without website data or without a set field, else the block. */
  function WebsiteContext(websiteData: Option<WebsiteData>): (r: string)
    ensures r == "" <==> websiteData.None? || !AnyWebsiteField(websiteData.value)
  {
    if websiteData.None? then ""
    else
      var lines := WebsiteLines(websiteData.value);
      WebsiteLinesEmpty(websiteData.value);
      ContextBlockNonEmpty(lines);
      if |lines| == 0 then "" else ContextBlock(lines)
  }

  /** buildWebsiteContext as the source writes it: push one line per set field, then join. */
  method BuildWebsiteContext(client: Client) returns (context: string)
    ensures context == WebsiteContext(client.websiteData)
  {
    if client.websiteData.None? {
      return "";
    }
    var wd := client.websiteData.value;
    var sections: seq<string> := [];
    if Truthy(wd.description) {
      sections := sections + ["**Company Description:** " + wd.description.value];
    }
    ghost var lines := FieldLine("**Company Description:** ", wd.description);
    assert sections == lines;
    if Truthy(wd.tagline) {
      sections := sections + ["**Tagline:** " + "\"" + wd.tagline.value + "\""];
    }
    lines := lines + QuotedFieldLine("**Tagline:** ", wd.tagline);
    assert sections == lines;
    if Truthy(wd.aboutUs) {
      sections := sections + ["**About the Business:** " + wd.aboutUs.value];
    }
    lines := lines + FieldLine("**About the Business:** ", wd.aboutUs);
    assert sections == lines;
    if Truthy(wd.phone) {
      sections := sections + ["**Business Phone:** " + wd.phone.value];
    }
    lines := lines + FieldLine("**Business Phone:** ", wd.phone);
    assert sections == lines;
    if Truthy(wd.email) {
      sections := sections + ["**Business Email:** " + wd.email.value];
    }
    lines := lines + FieldLine("**Business Email:** ", wd.email);
    assert sections == lines;
    if Truthy(wd.address) {
      sections := sections + ["**Address:** " + wd.address.value];
    }
    lines := lines + FieldLine("**Address:** ", wd.address);
    assert sections == lines;
    WebsiteLinesUnfold(wd);
    if |sections| == 0 {
      return "";
    }
    context := ContextBlock(sections);
  }

  /** The six field lines, as the method assembles them. */
  lemma WebsiteLinesUnfold(wd: WebsiteData)
    ensures WebsiteLines(wd) ==
      FieldLine("**Company Description:** ", wd.description) + QuotedFieldLine("**Tagline:** ", wd.tagline) +
      FieldLine("**About the Business:** ", wd.aboutUs) + FieldLine("**Business Phone:** ", wd.phone) +
      FieldLine("**Business Email:** ", wd.email) + FieldLine("**Address:** ", wd.address)
  {
  }

  /** The block is never empty. */
  lemma ContextBlockNonEmpty(lines: seq<string>)
    ensures |ContextBlock(lines)| > 0
  {
  }

  /** Every line appears in the block. */
  lemma ContextBlockShows(lines: seq<string>, line: string)
    requires line in lines
    ensures Contains(ContextBlock(lines), line)
  {
    var heading := "---\n\n## Additional Business Context (from website)\n\n";
    var closing := "Use this information to provide more personalized and accurate " +
      "responses. Reference the company's unique qualities when appropriate.\n";
    var body := Join(lines, "\n\n");
    var k :| 0 <= k < |lines| && lines[k] == line;
    JoinContains(lines, "\n\n", k);
    ContainsMiddle(heading, body, "\n\n");
    ContainsPrefix(heading + body + "\n\n", closing);
    ContainsSuffix("\n", heading + body + "\n\n" + closing);
    ContainsTrans(heading + body + "\n\n" + closing, heading + body + "\n\n", body);
    ContainsTrans(ContextBlock(lines), heading + body + "\n\n" + closing, body);
    ContainsTrans(ContextBlock(lines), body, line);
  }

  /** A line is emitted exactly for each set field, as that field's labelled line. */
  lemma WebsiteLinesMembers(wd: WebsiteData, line: string)
    ensures line in WebsiteLines(wd) <==>
      (Truthy(wd.description) && line == "**Company Description:** " + wd.description.value) ||
      (Truthy(wd.tagline) && line == "**Tagline:** " + "\"" + wd.tagline.value + "\"") ||
      (Truthy(wd.aboutUs) && line == "**About the Business:** " + wd.aboutUs.value) ||
      (Truthy(wd.phone) && line == "**Business Phone:** " + wd.phone.value) ||
      (Truthy(wd.email) && line == "**Business Email:** " + wd.email.value) ||
      (Truthy(wd.address) && line == "**Address:** " + wd.address.value)
  {
  }

  /** No line is emitted exactly when none of the six fields is set. */
  lemma WebsiteLinesEmpty(wd: WebsiteData)
    ensures |WebsiteLines(wd)| == 0 <==> !AnyWebsiteField(wd)
  {
  }

  /** Every emitted line shows up in the context. */
  lemma WebsiteContextShowsLines(wd: WebsiteData, line: string)
    requires line in WebsiteLines(wd)
    ensures Contains(WebsiteContext(Some(wd)), line)
  {
    ContextBlockShows(WebsiteLines(wd), line);
  }

  /** The raw page text and the scraped service list never reach the lines, hence never the context. */
  lemma WebsiteLinesIgnoreRawContent(wd: WebsiteData, raw: Option<string>, scraped: Option<seq<string>>)
    ensures WebsiteLines(wd.(rawContent := raw, scrapedServices := scraped)) == WebsiteLines(wd)
  {
  }
}
