/** Per-row rendering of the subject and body templates: every `{{header}}`
    placeholder is replaced by the row's cell text, header by header in list
    order, and a non-blank title cell then overrides the subject. */
module Template {
  import opened JsText
  import opened Sheets

  /** The placeholder text for a header. */
  function Placeholder(h: string): (r: string)
    ensures |r| == |h| + 4 && r[..2] == "{{" && r[2..|r| - 2] == h && r[|r| - 2..] == "}}"
  {
    "{{" + h + "}}"
  }

  /** One pass of the substitution loop: an empty header is passed over,
      otherwise every occurrence of its placeholder becomes the cell text. */
  function SubstituteHeader(s: string, h: string, row: Row): string {
    if h == "" then s else ReplaceAll(s, Placeholder(h), CellText(row, h))
  }

  /** The text after the loop has run over all of `headers`, in order. */
  function Substituted(s: string, headers: seq<string>, row: Row): string
    decreases |headers|
  {
    if headers == [] then s
    else SubstituteHeader(Substituted(s, headers[..|headers| - 1], row), headers[|headers| - 1], row)
  }

  /** The substitution loop over the header list, rewriting subject and body
      together. */
  method Substitute(subjectTemplate: string, bodyTemplate: string, headers: seq<string>, row: Row)
    returns (mailSubject: string, mailBody: string)
    ensures mailSubject == Substituted(subjectTemplate, headers, row)
    ensures mailBody == Substituted(bodyTemplate, headers, row)
  {
    mailSubject, mailBody := subjectTemplate, bodyTemplate;
    for k := 0 to |headers|
      invariant mailSubject == Substituted(subjectTemplate, headers[..k], row)
      invariant mailBody == Substituted(bodyTemplate, headers[..k], row)
    {
      var header := headers[k];
      assert headers[..k + 1][..k] == headers[..k];
      if header != "" {
        var placeholder := Placeholder(header);
        var value := CellText(row, header);
        mailSubject := ReplaceAll(mailSubject, placeholder, value);
        mailBody := ReplaceAll(mailBody, placeholder, value);
      }
    }
    assert headers[..|headers|] == headers;
  }

  /** A template without any `{{` is left as it is, whatever the row holds. */
  lemma {:induction false} SubstitutedWithoutPlaceholders(s: string, headers: seq<string>, row: Row)
    requires !Contains(s, "{{")
    ensures Substituted(s, headers, row) == s
    decreases |headers|
  {
    if headers != [] {
      var h := headers[|headers| - 1];
      SubstitutedWithoutPlaceholders(s, headers[..|headers| - 1], row);
      if h != "" {
        if Contains(s, Placeholder(h)) {
          assert Placeholder(h) == "{{" + (h + "}}");
          ContainsPrefixOf(s, "{{", h + "}}");
          assert false;
        }
        ReplaceAllNoMatch(s, Placeholder(h), CellText(row, h));
      }
    }
  }

  /** `"Hello {{name}}"` renders to `"Hello Ada"` for a row whose `name` is
      `"Ada"`, and to `"Hello "` for a row without a `name`. */
  lemma HelloExample()
    ensures Substituted("Hello {{name}}", ["name"], map["name" := "Ada"]) == "Hello Ada"
    ensures Substituted("Hello {{name}}", ["name"], map[]) == "Hello "
  {
    var headers := ["name"];
    assert headers[..0] == [];
    var a, p := "Hello ", Placeholder("name");
    assert a + p + "" == "Hello {{name}}";
    forall j | 0 <= j < |a|
      ensures !OccursAt(a + p + "", p, j)
    {
      assert (a + p + "")[j] != '{';
    }
    ReplaceAllFirst(a, p, "", "Ada");
    ReplaceAllFirst(a, p, "", "");
  }

  /** Substitution is not a single simultaneous pass: a value that itself
      holds the placeholder of a later header is expanded again by that
      header's pass. */
  lemma LaterHeaderReexpandsValue()
    ensures Substituted("{{a}}", ["a", "b"], map["a" := "{{b}}", "b" := "X"]) == "X"
  {
    var row := map["a" := "{{b}}", "b" := "X"];
    var headers := ["a", "b"];
    assert headers[..1] == ["a"] && headers[..1][..0] == [];
    ReplaceAllFirst("", "{{a}}", "", "{{b}}");
    ReplaceAllFirst("", "{{b}}", "", "X");
  }

  /** The trimmed title cell when the title header exists and the cell is
      not empty (`specificTitle`), otherwise `""`. */
  function SpecificTitle(titleHeader: Option<string>, row: Row): string {
    if titleHeader.Some? && CellText(row, titleHeader.value) != "" then Trim(CellText(row, titleHeader.value))
    else ""
  }

  /** The subject override: a non-blank title replaces the substituted
      subject unless that subject still shows the title placeholder. */
  function ApplyTitle(mailSubject: string, titleHeader: Option<string>, row: Row): (r: string)
    ensures r == mailSubject || (r == SpecificTitle(titleHeader, row) && r != "")
    ensures titleHeader.None? || SpecificTitle(titleHeader, row) == "" ==> r == mailSubject
    ensures (titleHeader.Some? && SpecificTitle(titleHeader, row) != ""
             && !Contains(mailSubject, Placeholder(titleHeader.value))) ==> r == SpecificTitle(titleHeader, row)
    ensures titleHeader.Some? && Contains(mailSubject, Placeholder(titleHeader.value)) ==> r == mailSubject
  {
    var specificTitle := SpecificTitle(titleHeader, row);
    if specificTitle != "" && !Contains(mailSubject, Placeholder(titleHeader.value)) then specificTitle
    else mailSubject
  }

  /** The subject line sent for a row. */
  function RenderSubject(subjectTemplate: string, headers: seq<string>, titleHeader: Option<string>, row: Row): string {
    ApplyTitle(Substituted(subjectTemplate, headers, row), titleHeader, row)
  }

  /** The override is tested on the substituted subject, so a subject
      template that does reference the title placeholder is still replaced
      by the bare title. */
  lemma TitleOverridesTemplatedSubject()
    ensures RenderSubject("Hi {{title}}", ["title"], Some("title"), map["title" := "Sale"]) == "Sale"
  {
    var row := map["title" := "Sale"];
    var subject := Substituted("Hi {{title}}", ["title"], row);
    SubstituteHiTitle(row);
    assert !Contains(subject, Placeholder("title")) by {
      ShorterHasNoOccurrence(subject, Placeholder("title"));
    }
    assert SpecificTitle(Some("title"), row) == "Sale" by {
      assert TrimStart("Sale") == "Sale";
      assert TrimEnd("Sale") == "Sale";
    }
  }

  lemma SubstituteHiTitle(row: Row)
    requires "title" in row && row["title"] == "Sale"
    ensures Substituted("Hi {{title}}", ["title"], row) == "Hi Sale"
  {
    var headers := ["title"];
    assert headers[..0] == [];
    var a, p := "Hi ", Placeholder("title");
    assert a + p + "" == "Hi {{title}}";
    forall j | 0 <= j < |a|
      ensures !OccursAt(a + p + "", p, j)
    {
      assert (a + p + "")[j] != '{';
    }
    ReplaceAllFirst(a, p, "", "Sale");
  }

  lemma ShorterHasNoOccurrence(s: string, p: string)
    requires |s| < |p|
    ensures !Contains(s, p)
  {
  }
}
